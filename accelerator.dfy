/**
 * The renderer's `keyEventToAccelerator`: it turns a keydown event into an
 * Electron accelerator string such as `Ctrl+Shift+A`, or into the empty string
 * when only a modifier key was pressed. The five hotkey buttons carry identical
 * copies of it; it is written here once.
 *
 * `Split` (JavaScript's `split('+')`) and `Decode` are the inverse used to state
 * what the encoder produces: the modifier tokens, in the order Ctrl, Shift, Alt,
 * followed by the key token.
 */
module Accelerator {
  import opened Optional

  /** The fields of a DOM `KeyboardEvent` that the encoder reads (and `metaKey`, which it ignores). */
  datatype KeyEvent = KeyEvent(ctrlKey: bool, shiftKey: bool, altKey: bool, metaKey: bool, key: string)

  /** What an accelerator names: the held modifiers and the key token. */
  datatype Chord = Chord(ctrl: bool, shift: bool, alt: bool, key: string)

  /** ASCII `toUpperCase` on one character. */
  function UpperChar(c: char): char {
    if 'a' <= c <= 'z' then (c as int - 32) as char else c
  }

  predicate IsLower(c: char) {
    'a' <= c <= 'z'
  }

  /** `String.prototype.toUpperCase`, restricted to ASCII letters. */
  function ToUpper(s: string): (u: string)
    ensures |u| == |s|
    ensures forall i :: 0 <= i < |s| ==> u[i] == UpperChar(s[i])
    ensures forall i :: 0 <= i < |u| ==> !IsLower(u[i])
  {
    if s == [] then [] else [UpperChar(s[0])] + ToUpper(s[1..])
  }

  /** The tokens of the keys that are modifiers on their own. */
  const ModifierKeyNames: seq<string> := ["CONTROL", "SHIFT", "ALT", "META"]

  /** `keyMap[e.key] || e.key.toUpperCase()`: the renamed keys, otherwise the upper-cased key. */
  function KeyToken(key: string): string {
    if key == " " then "Space"
    else if key == "ArrowUp" then "Up"
    else if key == "ArrowDown" then "Down"
    else if key == "ArrowLeft" then "Left"
    else if key == "ArrowRight" then "Right"
    else ToUpper(key)
  }

  predicate StartsWithF(key: string) {
    |key| > 0 && key[0] == 'F'
  }

  /** The position of a modifier token in the fixed order Ctrl, Shift, Alt. */
  function Rank(token: string): int {
    if token == "Ctrl" then 0 else if token == "Shift" then 1 else if token == "Alt" then 2 else 3
  }

  /** The modifier tokens pushed for the set flags. */
  function ModifierTokens(ctrl: bool, shift: bool, alt: bool): (parts: seq<string>)
    ensures "Ctrl" in parts <==> ctrl
    ensures "Shift" in parts <==> shift
    ensures "Alt" in parts <==> alt
    ensures |parts| == (if ctrl then 1 else 0) + (if shift then 1 else 0) + (if alt then 1 else 0)
    ensures forall i, j :: 0 <= i < j < |parts| ==> Rank(parts[i]) < Rank(parts[j]) < 3
  {
    (if ctrl then ["Ctrl"] else []) + (if shift then ["Shift"] else []) + (if alt then ["Alt"] else [])
  }

  /** `parts.join('+')`. */
  function Join(parts: seq<string>): string {
    if |parts| == 0 then ""
    else if |parts| == 1 then parts[0]
    else parts[0] + "+" + Join(parts[1..])
  }

  /** `s.split('+')`: the pieces between the separators, so there is always at least one. */
  function Split(s: string): (parts: seq<string>)
    ensures |parts| > 0
  {
    if |s| == 0 then [""]
    else
      var rest := Split(s[1..]);
      if s[0] == '+' then [""] + rest else [[s[0]] + rest[0]] + rest[1..]
  }

  /** The accelerator a chord stands for. */
  function Encode(c: Chord): string {
    Join(ModifierTokens(c.ctrl, c.shift, c.alt) + [c.key])
  }

  /** Reads an accelerator back: every piece but the last must be a modifier token, each at most once and in order. */
  function Decode(acc: string): (c: Option<Chord>)
    ensures c.Some? ==> Encode(c.value) == acc
  {
    var parts := Split(acc);
    var mods, key := parts[..|parts| - 1], parts[|parts| - 1];
    var ctrl, shift, alt := "Ctrl" in mods, "Shift" in mods, "Alt" in mods;
    if mods == ModifierTokens(ctrl, shift, alt) then
      SplitRejoins(acc);
      Some(Chord(ctrl, shift, alt, key))
    else None
  }

  /** Joining all pieces of a split but the last, then the last, gives the string back. */
  lemma SplitRejoins(s: string)
    ensures var parts := Split(s);
            Join(parts[..|parts| - 1] + [parts[|parts| - 1]]) == s
  {
    var parts := Split(s);
    assert parts[..|parts| - 1] + [parts[|parts| - 1]] == parts;
    JoinSplit(s);
  }

  /** The encoder, with the same branches as the source: modifier-only keys, then the F-key branch. */
  function KeyEventToAccelerator(e: KeyEvent): (acc: string)
    ensures KeyToken(e.key) in ModifierKeyNames ==> acc == ""
    ensures KeyToken(e.key) !in ModifierKeyNames ==>
              acc == Encode(Chord(e.ctrlKey, e.shiftKey, e.altKey, KeyToken(e.key)))
    ensures acc == "" <==>
              KeyToken(e.key) in ModifierKeyNames || (!e.ctrlKey && !e.shiftKey && !e.altKey && e.key == "")
  {
    var key := KeyToken(e.key);
    if key in ModifierKeyNames then ""
    else
      var key := if StartsWithF(e.key) && |e.key| <= 3 then ToUpper(e.key) else key;
      FKeyBranchIsNeutral(e.key);
      JoinNonEmpty(ModifierTokens(e.ctrlKey, e.shiftKey, e.altKey) + [key]);
      Join(ModifierTokens(e.ctrlKey, e.shiftKey, e.altKey) + [key])
  }

  // ---------------------------------------------------------------- lemmas

  /** The F-key branch re-computes the token the key map already gave: no F-key is renamed. */
  lemma FKeyBranchIsNeutral(key: string)
    ensures StartsWithF(key) ==> ToUpper(key) == KeyToken(key)
  {
  }

  /** A joined list is empty only when it is one empty piece or no piece at all. */
  lemma {:induction false} JoinNonEmpty(parts: seq<string>)
    ensures Join(parts) == "" <==> |parts| == 0 || (|parts| == 1 && parts[0] == "")
  {
    if |parts| > 1 {
      assert |parts[0] + "+" + Join(parts[1..])| > 0;
    }
  }

  /** Splitting a separator-free prefix glues it onto the first piece of the rest. */
  lemma {:induction false} SplitPrefix(a: string, rest: string)
    requires '+' !in a
    ensures Split(a + rest) == [a + Split(rest)[0]] + Split(rest)[1..]
  {
    if |a| > 0 {
      SplitPrefix(a[1..], rest);
      assert (a + rest)[1..] == a[1..] + rest;
      assert [a[0]] + (a[1..] + Split(rest)[0]) == a + Split(rest)[0];
    } else {
      assert a + rest == rest;
      assert a + Split(rest)[0] == Split(rest)[0];
    }
  }

  /** `split` undoes `join` when no piece contains the separator. */
  lemma {:induction false} SplitJoin(parts: seq<string>)
    requires |parts| > 0
    requires forall i :: 0 <= i < |parts| ==> '+' !in parts[i]
    ensures Split(Join(parts)) == parts
  {
    if |parts| == 1 {
      SplitPrefix(parts[0], "");
      assert parts[0] + "" == parts[0];
    } else {
      SplitJoin(parts[1..]);
      var tail := "+" + Join(parts[1..]);
      SplitPrefix(parts[0], tail);
      assert tail[1..] == Join(parts[1..]);
      assert Split(tail) == [""] + Split(Join(parts[1..]));
      assert parts[0] + "+" + Join(parts[1..]) == parts[0] + tail;
      assert parts[0] + "" == parts[0];
      assert [parts[0]] + parts[1..] == parts;
    }
  }

  /** `join` undoes `split`, for every string. */
  lemma {:induction false} JoinSplit(s: string)
    ensures Join(Split(s)) == s
  {
    if |s| > 0 {
      var rest := Split(s[1..]);
      JoinSplit(s[1..]);
      if s[0] == '+' {
        assert Split(s) == [""] + rest;
        assert ([""] + rest)[1..] == rest;
        assert s == [s[0]] + s[1..];
      } else {
        var first := [s[0]] + rest[0];
        assert Split(s) == [first] + rest[1..];
        if |rest| == 1 {
          assert Join(rest) == rest[0];
          assert s == [s[0]] + s[1..];
        } else {
          assert ([first] + rest[1..])[1..] == rest[1..];
          assert Join(rest) == rest[0] + "+" + Join(rest[1..]);
          assert s == [s[0]] + s[1..];
        }
      }
    }
  }

  /** Upper-casing never introduces a separator. */
  lemma KeyTokenHasNoSeparator(key: string)
    requires '+' !in key
    ensures '+' !in KeyToken(key)
  {
    assert forall i :: 0 <= i < |key| ==> ToUpper(key)[i] != '+';
  }

  /** Decoding an encoded chord gives the chord back, provided its key token has no separator. */
  lemma DecodeEncode(c: Chord)
    requires '+' !in c.key
    ensures Decode(Encode(c)) == Some(c)
  {
    var parts := ModifierTokens(c.ctrl, c.shift, c.alt) + [c.key];
    SplitJoin(parts);
    assert parts[..|parts| - 1] == ModifierTokens(c.ctrl, c.shift, c.alt);
  }

  /**
   * The accelerator of a non-modifier key reads back as the flags that were
   * held (Ctrl, Shift, Alt; never Meta) and the key token.
   */
  lemma AcceleratorRoundTrip(e: KeyEvent)
    requires KeyToken(e.key) !in ModifierKeyNames
    requires '+' !in e.key
    ensures Decode(KeyEventToAccelerator(e)) == Some(Chord(e.ctrlKey, e.shiftKey, e.altKey, KeyToken(e.key)))
  {
    KeyTokenHasNoSeparator(e.key);
    DecodeEncode(Chord(e.ctrlKey, e.shiftKey, e.altKey, KeyToken(e.key)));
  }

  /** Two key events give the same accelerator exactly when they agree on Ctrl, Shift, Alt and the key token. */
  lemma AcceleratorInjective(e1: KeyEvent, e2: KeyEvent)
    requires KeyToken(e1.key) !in ModifierKeyNames && KeyToken(e2.key) !in ModifierKeyNames
    requires '+' !in e1.key && '+' !in e2.key
    ensures KeyEventToAccelerator(e1) == KeyEventToAccelerator(e2) <==>
              e1.ctrlKey == e2.ctrlKey && e1.shiftKey == e2.shiftKey && e1.altKey == e2.altKey &&
              KeyToken(e1.key) == KeyToken(e2.key)
  {
    AcceleratorRoundTrip(e1);
    AcceleratorRoundTrip(e2);
  }

  /** The result ends with the key token, after the modifier tokens and a separator when there are any. */
  lemma {:induction false} EndsWithKeyToken(parts: seq<string>, key: string)
    ensures |Join(parts + [key])| >= |key|
    ensures Join(parts + [key])[|Join(parts + [key])| - |key|..] == key
    ensures |parts| > 0 ==> |Join(parts + [key])| > |key| &&
                            Join(parts + [key])[|Join(parts + [key])| - |key| - 1] == '+'
  {
    if |parts| > 0 {
      EndsWithKeyToken(parts[1..], key);
      assert (parts + [key])[1..] == parts[1..] + [key];
    }
  }

  /** The named keys: space and the four arrows are renamed; every other key is upper-cased. */
  lemma KeyTokens(key: string)
    ensures key == " " ==> KeyToken(key) == "Space"
    ensures key == "ArrowUp" ==> KeyToken(key) == "Up"
    ensures key == "ArrowDown" ==> KeyToken(key) == "Down"
    ensures key == "ArrowLeft" ==> KeyToken(key) == "Left"
    ensures key == "ArrowRight" ==> KeyToken(key) == "Right"
    ensures key !in {" ", "ArrowUp", "ArrowDown", "ArrowLeft", "ArrowRight"} ==> KeyToken(key) == ToUpper(key)
  {
  }

  /** The encoder never looks at `metaKey`. */
  lemma MetaIgnored(e: KeyEvent, meta: bool)
    ensures KeyEventToAccelerator(e.(metaKey := meta)) == KeyEventToAccelerator(e)
  {
  }
}
