/**
 * The main process's hotkey bookkeeping: the `registeredHotkeys` map from macro
 * id to accelerator, the single `mousePositionHotkey` slot, and the IPC
 * handlers that change them. Electron's `globalShortcut` is abstracted as the
 * set of accelerators the application currently holds; whether a request to
 * bind one succeeds is a parameter (`HostAnswer`), except that an accelerator
 * already held, or the empty string, is never granted.
 *
 * The step functions below say what each handler does to that state; the
 * class `MainHotkeys` holds it in fields and its methods are specified by
 * them.
 */
module Hotkeys {
  import opened Optional

  /** The error text of the handlers when the OS declines an accelerator. */
  const InUseOrInvalid: string := "Tecla já em uso ou inválida"

  /** What `globalShortcut.register` does with a request: bind it, return false, or throw. */
  datatype HostAnswer = Grant | Refuse | Throw(message: string)

  /** The object an IPC handler resolves with: `{success: true, key?}` or `{success: false, error}`. */
  datatype Reply = Ok(key: Option<string>) | Err(error: string) {
    predicate Success() {
      Ok?
    }
  }

  /** The registry: macro id to accelerator, the mouse-position slot, and the OS-held accelerators. */
  datatype Slots = Slots(hotkeys: map<string, string>, mouse: Option<string>, shortcuts: set<string>)

  /** The state at start-up: nothing registered. */
  const Empty: Slots := Slots(map[], None, {})

  /** `registeredHotkeys.get(id)`, with a missing entry read as the falsy "". */
  function OldKey(hotkeys: map<string, string>, id: string): string {
    if id in hotkeys then hotkeys[id] else ""
  }

  /** `mousePositionHotkey`, with `null` read as the falsy "". */
  function MouseKey(s: Slots): string {
    match s.mouse
    case Some(k) => k
    case None => ""
  }

  /** `if (key) globalShortcut.unregister(key)`. */
  function Release(shortcuts: set<string>, key: string): set<string> {
    if key != "" then shortcuts - {key} else shortcuts
  }

  /** Whether the OS binds `acc`: it must be asked to, and `acc` must be a non-empty accelerator it does not hold yet. */
  predicate Granted(shortcuts: set<string>, acc: string, answer: HostAnswer) {
    answer.Grant? && acc != "" && acc !in shortcuts
  }

  /** The error a failed registration reports: the exception's text, or the fixed message. */
  function FailureText(answer: HostAnswer): string {
    if answer.Throw? then answer.message else InUseOrInvalid
  }

  /**
   * The registry's invariant: no stored accelerator is empty, and every
   * accelerator the OS holds for the application is named by the map or by
   * the mouse-position slot (so none is leaked). It does NOT say that the map
   * is injective, and it does not say that every stored accelerator is held.
   */
  predicate Valid(s: Slots) {
    && "" !in s.hotkeys.Values
    && s.mouse != Some("")
    && "" !in s.shortcuts
    && s.shortcuts <= s.hotkeys.Values + (if s.mouse.Some? then {s.mouse.value} else {})
  }

  /** Two macro ids naming one accelerator. */
  predicate Injective(hotkeys: map<string, string>) {
    forall a, b :: a in hotkeys && b in hotkeys && a != b ==> hotkeys[a] != hotkeys[b]
  }

  /** `hotkey:register(id, acc)`: release the macro's old accelerator, then try to bind the new one. */
  function RegisterHotkey(s: Slots, id: string, acc: string, answer: HostAnswer): (r: (Slots, Reply))
    ensures r.1.Ok? <==> Granted(Release(s.shortcuts, OldKey(s.hotkeys, id)), acc, answer)
    ensures r.1.Ok? ==> r.1 == Ok(Some(acc)) && id in r.0.hotkeys && r.0.hotkeys[id] == acc && acc in r.0.shortcuts
    ensures r.1.Err? ==> r.1 == Err(FailureText(answer)) && r.0.hotkeys == s.hotkeys
    ensures forall other :: other != id ==> OldKey(r.0.hotkeys, other) == OldKey(s.hotkeys, other)
    ensures r.0.hotkeys.Keys <= s.hotkeys.Keys + {id}
    ensures OldKey(s.hotkeys, id) != "" ==> OldKey(s.hotkeys, id) !in r.0.shortcuts || (r.1.Ok? && acc == OldKey(s.hotkeys, id))
    ensures r.0.shortcuts == Release(s.shortcuts, OldKey(s.hotkeys, id)) + (if r.1.Ok? then {acc} else {})
    ensures r.0.mouse == s.mouse
  {
    var held := Release(s.shortcuts, OldKey(s.hotkeys, id));
    if Granted(held, acc, answer) then
      (Slots(s.hotkeys[id := acc], s.mouse, held + {acc}), Ok(Some(acc)))
    else
      (s.(shortcuts := held), Err(FailureText(answer)))
  }

  /** `hotkey:unregister(id)`: release and forget the macro's accelerator if it has one; always succeeds. */
  function UnregisterHotkey(s: Slots, id: string): (r: (Slots, Reply))
    ensures r.1 == Ok(None)
    ensures OldKey(r.0.hotkeys, id) == ""
    ensures forall other :: other != id ==> OldKey(r.0.hotkeys, other) == OldKey(s.hotkeys, other)
    ensures OldKey(s.hotkeys, id) == "" ==> r.0 == s
    ensures r.0.shortcuts == Release(s.shortcuts, OldKey(s.hotkeys, id))
    ensures r.0.mouse == s.mouse
  {
    var key := OldKey(s.hotkeys, id);
    if key != "" then
      (Slots(s.hotkeys - {id}, s.mouse, s.shortcuts - {key}), Ok(None))
    else
      (s, Ok(None))
  }

  /** `mousePosition:register(acc)`: release the slot's accelerator, then try to bind the new one. */
  function RegisterMousePosition(s: Slots, acc: string, answer: HostAnswer): (r: (Slots, Reply))
    ensures r.1.Ok? <==> Granted(Release(s.shortcuts, MouseKey(s)), acc, answer)
    ensures r.1.Ok? ==> r.1 == Ok(Some(acc)) && r.0.mouse == Some(acc) && acc in r.0.shortcuts
    ensures r.1.Err? ==> r.1 == Err(FailureText(answer)) && r.0.mouse == s.mouse
    ensures MouseKey(s) != "" ==> MouseKey(s) !in r.0.shortcuts || (r.1.Ok? && acc == MouseKey(s))
    ensures r.0.shortcuts == Release(s.shortcuts, MouseKey(s)) + (if r.1.Ok? then {acc} else {})
    ensures r.0.hotkeys == s.hotkeys
  {
    var held := Release(s.shortcuts, MouseKey(s));
    if Granted(held, acc, answer) then
      (Slots(s.hotkeys, Some(acc), held + {acc}), Ok(Some(acc)))
    else
      (s.(shortcuts := held), Err(FailureText(answer)))
  }

  /** `mousePosition:unregister()`: release and clear the slot if it is set; always succeeds. */
  function UnregisterMousePosition(s: Slots): (r: (Slots, Reply))
    ensures r.1 == Ok(None)
    ensures MouseKey(r.0) == ""
    ensures MouseKey(s) == "" ==> r.0 == s
    ensures r.0.shortcuts == Release(s.shortcuts, MouseKey(s))
    ensures r.0.hotkeys == s.hotkeys
  {
    var key := MouseKey(s);
    if key != "" then (Slots(s.hotkeys, None, s.shortcuts - {key}), Ok(None)) else (s, Ok(None))
  }

  // ---------------------------------------------------------------- lemmas

  /** Every handler keeps the invariant. */
  lemma HandlersKeepValid(s: Slots, id: string, acc: string, answer: HostAnswer)
    requires Valid(s)
    ensures Valid(RegisterHotkey(s, id, acc, answer).0)
    ensures Valid(UnregisterHotkey(s, id).0)
    ensures Valid(RegisterMousePosition(s, acc, answer).0)
    ensures Valid(UnregisterMousePosition(s).0)
  {
    var slot := if s.mouse.Some? then {s.mouse.value} else {};
    var held := Release(s.shortcuts, OldKey(s.hotkeys, id));
    if Granted(held, acc, answer) {
      var h := s.hotkeys[id := acc];
      forall k | k in held + {acc} ensures k in h.Values + slot {
        if k == acc {
          assert h[id] == acc;
        } else if k !in slot {
          var m :| m in s.hotkeys && s.hotkeys[m] == k;
          assert m != id;
          assert h[m] == k;
        }
      }
    }
    var key := OldKey(s.hotkeys, id);
    if key != "" {
      var h := s.hotkeys - {id};
      forall k | k in s.shortcuts - {key} ensures k in h.Values + slot {
        if k !in slot {
          var m :| m in s.hotkeys && s.hotkeys[m] == k;
          assert m != id;
          assert h[m] == k;
        }
      }
    }
  }

  /** With the invariant, unregistering forgets the macro; and doing it twice is doing it once. */
  lemma UnregisterHotkeyForgets(s: Slots, id: string)
    requires Valid(s)
    ensures id !in UnregisterHotkey(s, id).0.hotkeys
    ensures UnregisterHotkey(UnregisterHotkey(s, id).0, id) == UnregisterHotkey(s, id)
  {
    if id in s.hotkeys {
      assert s.hotkeys[id] in s.hotkeys.Values;
    }
  }

  /** Unregistering the mouse-position slot twice is unregistering it once, and leaves it empty. */
  lemma UnregisterMousePositionIdempotent(s: Slots)
    requires Valid(s)
    ensures UnregisterMousePosition(s).0.mouse == None
    ensures UnregisterMousePosition(UnregisterMousePosition(s).0) == UnregisterMousePosition(s)
  {
  }

  /**
   * An accelerator the OS holds for one macro cannot be taken by another:
   * registering it for a second macro (one that does not itself name it) fails
   * and leaves the first macro's entry as it was.
   */
  lemma HeldAcceleratorIsRefused(s: Slots, first: string, second: string, acc: string, answer: HostAnswer)
    requires first != second && first in s.hotkeys && s.hotkeys[first] == acc
    requires acc in s.shortcuts
    requires OldKey(s.hotkeys, second) != acc
    ensures RegisterHotkey(s, second, acc, answer).1.Err?
    ensures RegisterHotkey(s, second, acc, answer).0.hotkeys[first] == acc
  {
  }

  /**
   * The map is not kept injective: a failed re-registration has already
   * released the macro's old accelerator, so a second macro can then bind it,
   * and both ids name the same accelerator.
   */
  lemma StaleEntryBreaksInjectivity()
    ensures var s1 := RegisterHotkey(Empty, "revive", "F1", Grant).0;
            var s2 := RegisterHotkey(s1, "revive", "F2", Refuse).0;
            var s3 := RegisterHotkey(s2, "heal", "F1", Grant).0;
            && Valid(s3)
            && s2.hotkeys == map["revive" := "F1"] && "F1" !in s2.shortcuts
            && s3.hotkeys == map["revive" := "F1", "heal" := "F1"]
            && !Injective(s3.hotkeys)
  {
    var s1 := RegisterHotkey(Empty, "revive", "F1", Grant).0;
    var s2 := RegisterHotkey(s1, "revive", "F2", Refuse).0;
    var s3 := RegisterHotkey(s2, "heal", "F1", Grant).0;
    assert s3.hotkeys["revive"] == s3.hotkeys["heal"];
    assert s3.hotkeys.Values == {"F1"} by {
      assert "F1" in s3.hotkeys.Values by { assert s3.hotkeys["heal"] == "F1"; }
    }
  }

  /**
   * The main process's module-level state: `registeredHotkeys`,
   * `mousePositionHotkey`, and (standing for `globalShortcut`) the
   * accelerators the application holds.
   */
  class MainHotkeys {
    var registeredHotkeys: map<string, string>
    var mousePositionHotkey: Option<string>
    var shortcuts: set<string>

    ghost function State(): Slots
      reads this
    {
      Slots(registeredHotkeys, mousePositionHotkey, shortcuts)
    }

    constructor ()
      ensures State() == Empty && Valid(State())
    {
      registeredHotkeys := map[];
      mousePositionHotkey := None;
      shortcuts := {};
    }

    /** `globalShortcut.register(acc, callback)` when it does not throw. */
    method BindShortcut(acc: string, answer: HostAnswer) returns (success: bool)
      requires !answer.Throw?
      modifies this`shortcuts
      ensures success == Granted(old(shortcuts), acc, answer)
      ensures shortcuts == if success then old(shortcuts) + {acc} else old(shortcuts)
    {
      success := answer.Grant? && acc != "" && acc !in shortcuts;
      if success {
        shortcuts := shortcuts + {acc};
      }
    }

    /** `globalShortcut.unregister(acc)`: a no-op for an accelerator not held. */
    method UnbindShortcut(acc: string)
      modifies this`shortcuts
      ensures shortcuts == old(shortcuts) - {acc}
    {
      shortcuts := shortcuts - {acc};
    }

    /** The `hotkey:register` handler. */
    method HandleRegisterHotkey(macroId: string, accelerator: string, answer: HostAnswer) returns (reply: Reply)
      modifies this
      ensures (State(), reply) == RegisterHotkey(old(State()), macroId, accelerator, answer)
    {
      var oldKey := if macroId in registeredHotkeys then registeredHotkeys[macroId] else "";
      if oldKey != "" {
        UnbindShortcut(oldKey);
      }
      if answer.Throw? {
        return Err(answer.message);
      }
      var success := BindShortcut(accelerator, answer);
      if success {
        registeredHotkeys := registeredHotkeys[macroId := accelerator];
        reply := Ok(Some(accelerator));
      } else {
        reply := Err(InUseOrInvalid);
      }
    }

    /** The `hotkey:unregister` handler. */
    method HandleUnregisterHotkey(macroId: string) returns (reply: Reply)
      modifies this
      ensures (State(), reply) == UnregisterHotkey(old(State()), macroId)
    {
      var key := if macroId in registeredHotkeys then registeredHotkeys[macroId] else "";
      if key != "" {
        UnbindShortcut(key);
        registeredHotkeys := registeredHotkeys - {macroId};
      }
      reply := Ok(None);
    }

    /** The `mousePosition:register` handler. */
    method HandleRegisterMousePosition(accelerator: string, answer: HostAnswer) returns (reply: Reply)
      modifies this
      ensures (State(), reply) == RegisterMousePosition(old(State()), accelerator, answer)
    {
      if mousePositionHotkey.Some? && mousePositionHotkey.value != "" {
        UnbindShortcut(mousePositionHotkey.value);
      }
      if answer.Throw? {
        return Err(answer.message);
      }
      var success := BindShortcut(accelerator, answer);
      if success {
        mousePositionHotkey := Some(accelerator);
        reply := Ok(Some(accelerator));
      } else {
        reply := Err(InUseOrInvalid);
      }
    }

    /** The `mousePosition:unregister` handler. */
    method HandleUnregisterMousePosition() returns (reply: Reply)
      modifies this
      ensures (State(), reply) == UnregisterMousePosition(old(State()))
    {
      if mousePositionHotkey.Some? && mousePositionHotkey.value != "" {
        UnbindShortcut(mousePositionHotkey.value);
        mousePositionHotkey := None;
      }
      reply := Ok(None);
    }
  }
}
