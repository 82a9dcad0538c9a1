/**
 * Input synthesis in the main process: `pressKey`, `lockMouseAt`/`unlockMouse`,
 * the three macros and `executeMacro`. Every call into nut-js becomes an event
 * appended to a trace, so a macro's behaviour is the exact ordered list of
 * events it produces.
 */
module Macros {

  /** The nut-js keys the macros press. */
  datatype Key = LeftControl | LeftShift | LeftAlt | Num0 | Num1 | Num3 | S | H | J

  /** One call into the input library or the timer API, in the order it is made. */
  datatype InputEvent =
    | Press(keys: seq<Key>)    // keyboard.pressKey(...keys)
    | Release(keys: seq<Key>)  // keyboard.releaseKey(...keys)
    | Type(key: Key)           // keyboard.type(key): a press and a release
    | Wait(ms: nat)            // the awaited setTimeout
    | SetPos(x: int, y: int)   // mouse.setPosition
    | Lock(x: int, y: int)     // the 10 ms setInterval that pins the pointer starts
    | Unlock                   // clearInterval of that timer
  {
    /** Whether the event concerns the pointer (as opposed to the keyboard or the clock). */
    predicate IsPointer() {
      SetPos? || Lock? || Unlock?
    }
  }

  /** One `pressKey(key, ...modifiers)` call of a macro. */
  datatype Combo = Combo(key: Key, modifiers: seq<Key>)

  /** The events of `pressKey(key, ...modifiers)`. */
  function Tap(key: Key, modifiers: seq<Key>): (events: seq<InputEvent>)
    ensures |events| > 0 && events[|events| - 1] == Wait(100)
    ensures forall i :: 0 <= i < |events| ==> !events[i].IsPointer()
  {
    (if |modifiers| > 0
     then [Press(modifiers), Press([key]), Release([key]), Release(modifiers)]
     else [Press([key]), Release([key])])
    + [Wait(100)]
  }

  /** The keys held down after `event`, when `held` were held before it. */
  function Step(held: multiset<Key>, event: InputEvent): multiset<Key> {
    match event
    case Press(keys) => held + multiset(keys)
    case Release(keys) => held - multiset(keys)
    case _ => held
  }

  /** The keys held down after `events`, starting from the keys `held`. */
  function HeldFrom(held: multiset<Key>, events: seq<InputEvent>): multiset<Key>
    decreases |events|
  {
    if |events| == 0 then held else HeldFrom(Step(held, events[0]), events[1..])
  }

  /** The keys held down before the first event, after each event, and so on up to after the last. */
  function HeldAlong(held: multiset<Key>, events: seq<InputEvent>): (profile: seq<multiset<Key>>)
    ensures |profile| == |events| + 1
    decreases |events|
  {
    if |events| == 0 then [held] else [held] + HeldAlong(Step(held, events[0]), events[1..])
  }

  /** The keys held down after `events`, starting with none. */
  function Held(events: seq<InputEvent>): multiset<Key> {
    HeldFrom(multiset{}, events)
  }

  /** The events of a sequence of `pressKey` calls, one after the other. */
  function Taps(combos: seq<Combo>): seq<InputEvent> {
    if |combos| == 0 then []
    else
      var last := combos[|combos| - 1];
      Taps(combos[..|combos| - 1]) + Tap(last.key, last.modifiers)
  }

  /** The five key chords of `macroRevive`, in order: Ctrl+1, Shift+0, Ctrl+1, Shift+S, Alt+3. */
  const ReviveCombos: seq<Combo> := [
    Combo(Num1, [LeftControl]),
    Combo(Num0, [LeftShift]),
    Combo(Num1, [LeftControl]),
    Combo(S, [LeftShift]),
    Combo(Num3, [LeftAlt])
  ]

  /** Where `macroRevive` pins the pointer. */
  const ReviveX := 58
  const ReviveY := 77

  /** The events of `macroRevive`: lock, the five chords, unlock. */
  function ReviveEvents(): seq<InputEvent> {
    [SetPos(ReviveX, ReviveY), Lock(ReviveX, ReviveY)]
    + Tap(Num1, [LeftControl]) + Tap(Num0, [LeftShift]) + Tap(Num1, [LeftControl])
    + Tap(S, [LeftShift]) + Tap(Num3, [LeftAlt])
    + [Unlock]
  }

  /** The entries of the `macros` table. */
  datatype Macro = Revive | Heal | Buff

  /** The `macros` table, keyed by macro id. */
  const MacroTable: map<string, Macro> := map["revive" := Revive, "heal" := Heal, "buff" := Buff]

  /** The events each macro produces; heal types H and buff types J. */
  function MacroEvents(m: Macro): seq<InputEvent> {
    match m
    case Revive => ReviveEvents()
    case Heal => [Type(H)]
    case Buff => [Type(J)]
  }

  /** The input events `executeMacro(id)` produces. */
  function ExecuteMacroEvents(id: string): (events: seq<InputEvent>)
    ensures id in MacroTable ==> events == MacroEvents(MacroTable[id])
    ensures events == [] <==> id !in MacroTable
  {
    if id in MacroTable then MacroEvents(MacroTable[id]) else []
  }

  // ---------------------------------------------------------------- lemmas

  /** Holding keys over a concatenation is holding them over each part in turn. */
  lemma {:induction false} HeldFromConcat(held: multiset<Key>, a: seq<InputEvent>, b: seq<InputEvent>)
    ensures HeldFrom(held, a + b) == HeldFrom(HeldFrom(held, a), b)
    decreases |a|
  {
    if |a| == 0 {
      assert a + b == b;
    } else {
      var ab := a + b;
      assert ab[0] == a[0] && ab[1..] == a[1..] + b;
      calc {
        HeldFrom(held, ab);
        HeldFrom(Step(held, a[0]), a[1..] + b);
        { HeldFromConcat(Step(held, a[0]), a[1..], b); }
        HeldFrom(HeldFrom(Step(held, a[0]), a[1..]), b);
      }
    }
  }

  /** The last entry of the profile is the keys held at the end. */
  lemma {:induction false} HeldAlongEnds(held: multiset<Key>, events: seq<InputEvent>)
    ensures HeldAlong(held, events)[|events|] == HeldFrom(held, events)
    decreases |events|
  {
    if |events| > 0 {
      HeldAlongEnds(Step(held, events[0]), events[1..]);
    }
  }

  /** The profile of one event followed by more: the keys before it, then the profile of the rest. */
  lemma ConsProfile(held: multiset<Key>, next: multiset<Key>, e: InputEvent, rest: seq<InputEvent>, tail: seq<multiset<Key>>)
    requires Step(held, e) == next && HeldAlong(next, rest) == tail
    ensures HeldAlong(held, [e] + rest) == [held] + tail
  {
    assert ([e] + rest)[1..] == rest;
  }

  /** The profile of the last two events of `pressKey` with modifiers: release them, wait. */
  lemma AfterKeyRelease(held: multiset<Key>, modifiers: seq<Key>)
    ensures HeldAlong(held + multiset(modifiers), [Release(modifiers), Wait(100)])
            == [held + multiset(modifiers), held, held]
  {
    ConsProfile(held, held, Wait(100), [], [held]);
    ConsProfile(held + multiset(modifiers), held, Release(modifiers), [Wait(100)], [held, held]);
  }

  /** The profile from releasing the key on: the key goes up, then the modifiers. */
  lemma AfterKeyPress(held: multiset<Key>, key: Key, modifiers: seq<Key>)
    ensures var h1 := held + multiset(modifiers);
            HeldAlong(h1 + multiset{key}, [Release([key]), Release(modifiers), Wait(100)])
            == [h1 + multiset{key}, h1, held, held]
  {
    var h1 := held + multiset(modifiers);
    assert multiset([key]) == multiset{key};
    AfterKeyRelease(held, modifiers);
    ConsProfile(h1 + multiset{key}, h1, Release([key]), [Release(modifiers), Wait(100)], [h1, held, held]);
  }

  /** The profile from pressing the key on, with the modifiers already down. */
  lemma AfterModifiersPress(held: multiset<Key>, key: Key, modifiers: seq<Key>)
    ensures var h1 := held + multiset(modifiers);
            HeldAlong(h1, [Press([key]), Release([key]), Release(modifiers), Wait(100)])
            == [h1, h1 + multiset{key}, h1, held, held]
  {
    var h1 := held + multiset(modifiers);
    assert multiset([key]) == multiset{key};
    AfterKeyPress(held, key, modifiers);
    ConsProfile(h1, h1 + multiset{key}, Press([key]), [Release([key]), Release(modifiers), Wait(100)],
                [h1 + multiset{key}, h1, held, held]);
  }

  /** The held-keys profile of `pressKey` with modifiers. */
  lemma TapProfileWithModifiers(held: multiset<Key>, key: Key, modifiers: seq<Key>)
    requires |modifiers| > 0
    ensures var m := multiset(modifiers);
            HeldAlong(held, Tap(key, modifiers)) == [held, held + m, held + m + multiset{key}, held + m, held, held]
  {
    var h1 := held + multiset(modifiers);
    AfterModifiersPress(held, key, modifiers);
    assert Tap(key, modifiers) == [Press(modifiers)] + [Press([key]), Release([key]), Release(modifiers), Wait(100)];
    ConsProfile(held, h1, Press(modifiers), [Press([key]), Release([key]), Release(modifiers), Wait(100)],
                [h1, h1 + multiset{key}, h1, held, held]);
  }

  /** The held-keys profile of `pressKey` without modifiers. */
  lemma TapProfileAlone(held: multiset<Key>, key: Key)
    ensures HeldAlong(held, Tap(key, [])) == [held, held + multiset{key}, held, held]
  {
    var h1 := held + multiset{key};
    assert multiset([key]) == multiset{key};
    ConsProfile(held, held, Wait(100), [], [held]);
    ConsProfile(h1, held, Release([key]), [Wait(100)], [held, held]);
    assert Tap(key, []) == [Press([key])] + [Release([key]), Wait(100)];
    ConsProfile(held, h1, Press([key]), [Release([key]), Wait(100)], [h1, held, held]);
  }

  /**
   * `pressKey` nests the key inside its modifiers: the keys held along its
   * events go from those held before, to those plus the modifiers, plus the
   * key, back to plus the modifiers, and back to those held before. So the key
   * is never down without its modifiers, it is released before them, and the
   * call leaves held exactly what was held before it.
   */
  lemma TapNests(held: multiset<Key>, key: Key, modifiers: seq<Key>)
    ensures var m := multiset(modifiers);
            HeldAlong(held, Tap(key, modifiers)) ==
              if |modifiers| > 0 then [held, held + m, held + m + multiset{key}, held + m, held, held]
              else [held, held + multiset{key}, held, held]
    ensures HeldFrom(held, Tap(key, modifiers)) == held
  {
    HeldAlongEnds(held, Tap(key, modifiers));
    if |modifiers| > 0 {
      TapProfileWithModifiers(held, key, modifiers);
    } else {
      TapProfileAlone(held, key);
    }
  }

  /** A run of `pressKey` calls leaves held exactly what was held before it. */
  lemma {:induction false} TapsReleaseAll(held: multiset<Key>, combos: seq<Combo>)
    ensures HeldFrom(held, Taps(combos)) == held
  {
    if |combos| > 0 {
      var last := combos[|combos| - 1];
      TapsReleaseAll(held, combos[..|combos| - 1]);
      HeldFromConcat(held, Taps(combos[..|combos| - 1]), Tap(last.key, last.modifiers));
      TapNests(held, last.key, last.modifiers);
    }
  }

  /** One more `pressKey` call appends its events. */
  lemma TapsSnoc(combos: seq<Combo>, c: Combo)
    ensures Taps(combos + [c]) == Taps(combos) + Tap(c.key, c.modifiers)
  {
    assert (combos + [c])[..|combos|] == combos;
  }

  /** The chords of `macroRevive`, one `pressKey` call after another. */
  lemma ReviveTaps()
    ensures ReviveEvents() == [SetPos(ReviveX, ReviveY), Lock(ReviveX, ReviveY)] + Taps(ReviveCombos) + [Unlock]
  {
    var c := ReviveCombos;
    assert c[..0] == [];
    assert c[..1] == c[..0] + [c[0]];
    TapsSnoc(c[..0], c[0]);
    assert c[..2] == c[..1] + [c[1]];
    TapsSnoc(c[..1], c[1]);
    assert c[..3] == c[..2] + [c[2]];
    TapsSnoc(c[..2], c[2]);
    assert c[..4] == c[..3] + [c[3]];
    TapsSnoc(c[..3], c[3]);
    assert c == c[..4] + [c[4]];
    TapsSnoc(c[..4], c[4]);
  }

  /** A run of `pressKey` calls never touches the pointer. */
  lemma {:induction false} TapsLeavePointer(combos: seq<Combo>)
    ensures forall i :: 0 <= i < |Taps(combos)| ==> !Taps(combos)[i].IsPointer()
  {
    if |combos| > 0 {
      TapsLeavePointer(combos[..|combos| - 1]);
    }
  }

  /**
   * `macroRevive` pins the pointer at (58, 77) first, unpins it last, and
   * between the two neither moves, pins nor unpins it; all it does there is
   * key chords, and it leaves no key held.
   */
  lemma ReviveKeepsPointerLocked()
    ensures var ev := ReviveEvents();
            && |ev| > 3
            && ev[0] == SetPos(58, 77) && ev[1] == Lock(58, 77)
            && ev[|ev| - 1] == Unlock
            && (forall i :: 1 < i < |ev| - 1 ==> !ev[i].IsPointer())
            && Held(ev) == multiset{}
  {
    var ev := ReviveEvents();
    var keys := Taps(ReviveCombos);
    ReviveTaps();
    TapsLeavePointer(ReviveCombos);
    assert ReviveCombos[..1] == [Combo(Num1, [LeftControl])];
    assert |keys| > 0;
    forall i | 1 < i < |ev| - 1 ensures !ev[i].IsPointer() {
      assert ev[i] == keys[i - 2];
    }
    TapsReleaseAll(multiset{}, ReviveCombos);
    HeldFromConcat(multiset{}, [SetPos(ReviveX, ReviveY), Lock(ReviveX, ReviveY)], keys);
    HeldFromConcat(multiset{}, [SetPos(ReviveX, ReviveY), Lock(ReviveX, ReviveY)] + keys, [Unlock]);
    var prefix := [SetPos(ReviveX, ReviveY), Lock(ReviveX, ReviveY)];
    assert prefix[1..][1..] == [];
    assert HeldFrom(multiset{}, prefix) == multiset{};
    assert [Unlock][1..] == [];
  }

  /** Every entry of the table produces input; an id outside it produces none. */
  lemma ExecuteMacroSilentOnlyForUnknownIds(id: string)
    ensures ExecuteMacroEvents(id) == [] <==> id !in {"revive", "heal", "buff"}
    ensures id == "heal" ==> ExecuteMacroEvents(id) == [Type(H)]
    ensures id == "buff" ==> ExecuteMacroEvents(id) == [Type(J)]
    ensures id == "revive" ==> ExecuteMacroEvents(id) == ReviveEvents()
  {
  }

  /**
   * The main process's input side: the trace of events sent so far and
   * whether the pointer-pinning timer (`mouseLockInterval`) is running.
   */
  class InputDriver {
    var trace: seq<InputEvent>
    var locked: bool

    constructor ()
      ensures trace == [] && !locked
    {
      trace := [];
      locked := false;
    }

    /** `pressKey(key, ...modifiers)`: modifiers down, key down, key up, modifiers up, then a 100 ms pause. */
    method PressKey(key: Key, modifiers: seq<Key>)
      modifies this
      ensures trace == old(trace) + Tap(key, modifiers)
      ensures locked == old(locked)
    {
      if |modifiers| > 0 {
        trace := trace + [Press(modifiers)];
        trace := trace + [Press([key])];
        trace := trace + [Release([key])];
        trace := trace + [Release(modifiers)];
      } else {
        trace := trace + [Press([key])];
        trace := trace + [Release([key])];
      }
      trace := trace + [Wait(100)];
    }

    /** `lockMouseAt(x, y)`: move the pointer there, then start the timer that keeps it there. */
    method LockMouseAt(x: int, y: int)
      modifies this
      ensures trace == old(trace) + [SetPos(x, y), Lock(x, y)]
      ensures locked
    {
      trace := trace + [SetPos(x, y)];
      trace := trace + [Lock(x, y)];
      locked := true;
    }

    /** `unlockMouse()`: stop the timer if there is one; afterwards there is none. */
    method UnlockMouse()
      modifies this
      ensures !locked
      ensures trace == old(trace) + (if old(locked) then [Unlock] else [])
    {
      if locked {
        trace := trace + [Unlock];
        locked := false;
      }
    }

    /** `macroRevive()`. */
    method MacroRevive()
      modifies this
      ensures trace == old(trace) + ReviveEvents()
      ensures !locked
    {
      ghost var start := trace;
      LockMouseAt(ReviveX, ReviveY);
      ghost var sent := [SetPos(ReviveX, ReviveY), Lock(ReviveX, ReviveY)];
      PressKey(Num1, [LeftControl]);
      sent := sent + Tap(Num1, [LeftControl]);
      assert trace == start + sent;
      PressKey(Num0, [LeftShift]);
      sent := sent + Tap(Num0, [LeftShift]);
      assert trace == start + sent;
      PressKey(Num1, [LeftControl]);
      sent := sent + Tap(Num1, [LeftControl]);
      assert trace == start + sent;
      PressKey(S, [LeftShift]);
      sent := sent + Tap(S, [LeftShift]);
      assert trace == start + sent;
      PressKey(Num3, [LeftAlt]);
      sent := sent + Tap(Num3, [LeftAlt]);
      assert trace == start + sent;
      UnlockMouse();
      sent := sent + [Unlock];
      assert trace == start + sent;
    }

    /** `macroHeal()`: type H. */
    method MacroHeal()
      modifies this
      ensures trace == old(trace) + [Type(H)]
      ensures locked == old(locked)
    {
      trace := trace + [Type(H)];
    }

    /** `macroBuff()`: type J. */
    method MacroBuff()
      modifies this
      ensures trace == old(trace) + [Type(J)]
      ensures locked == old(locked)
    {
      trace := trace + [Type(J)];
    }

    /** `executeMacro(id)`: run the table entry for `id`, or do nothing when there is none. */
    method ExecuteMacro(id: string)
      modifies this
      ensures trace == old(trace) + ExecuteMacroEvents(id)
      ensures locked == (if id in MacroTable && MacroTable[id] == Revive then false else old(locked))
    {
      if id in MacroTable {
        match MacroTable[id]
        case Revive => MacroRevive();
        case Heal => MacroHeal();
        case Buff => MacroBuff();
      }
    }
  }

  /** `unlockMouse` is idempotent: a second call sends nothing and leaves the timer stopped. */
  method UnlockMouseTwice(d: InputDriver)
    modifies d
    ensures !d.locked
    ensures d.trace == old(d.trace) + (if old(d.locked) then [Unlock] else [])
  {
    d.UnlockMouse();
    ghost var once := d.trace;
    d.UnlockMouse();
    assert d.trace == once;
  }
}
