/**
 * What the five hotkey buttons of the renderer share: after a click they
 * listen for one keydown; a key that encodes to the empty accelerator is
 * ignored (they keep listening, nothing is sent), any other stops the
 * listening, is sent to the main process once, and becomes the button's
 * hotkey only if the main process accepts it. A right-click with a hotkey set
 * asks the main process to drop it and clears it.
 */
module HotkeyCapture {
  import opened Optional
  import opened Accelerator
  import Hotkeys

  /** How an awaited `window.api` call ends: resolved with the handler's reply, or rejected. */
  datatype Outcome = Resolved(reply: Hotkeys.Reply) | Rejected

  /** The `window.api` calls the buttons make, in the order they make them. */
  datatype ApiCall =
    | RegisterHotkey(macroId: string, accelerator: string)
    | UnregisterHotkey(macroId: string)
    | RegisterMousePositionHotkey(accelerator: string)
    | UnregisterMousePositionHotkey
    | RegisterScreenCaptureHotkey(accelerator: string)
    | UnregisterScreenCaptureHotkey
    | RegisterFindImageHotkey(accelerator: string)
    | UnregisterFindImageHotkey
    | RegisterStopImageSearchHotkey(accelerator: string)
    | UnregisterStopImageSearchHotkey

  /** The React state every button keeps: its hotkey ("" for none), whether it listens, and its status line. */
  datatype Listener = Listener(hotkey: string, isListening: bool, status: string)

  const Registering: string := "Registrando..."

  function ErrorStatus(error: string): string {
    "Erro: " + error
  }

  /** Whether the awaited call resolved with `{success: true}`. */
  predicate Accepted(outcome: Outcome) {
    outcome.Resolved? && outcome.reply.Success()
  }

  /** `handleKeyDown` once the accelerator `acc` is computed and the register call has ended with `outcome`. */
  function KeyDown(l: Listener, acc: string, outcome: Outcome): (r: Listener)
    requires l.isListening
    ensures acc == "" ==> r == l
    ensures acc != "" ==> !r.isListening
    ensures r.hotkey == if acc != "" && Accepted(outcome) then acc else l.hotkey
    ensures acc != "" && outcome.Rejected? ==> r.status == Registering
    ensures acc != "" && outcome.Resolved? ==>
              r.status == if outcome.reply.Success() then "" else ErrorStatus(outcome.reply.error)
  {
    if acc == "" then l
    else
      match outcome
      case Rejected => l.(isListening := false, status := Registering)
      case Resolved(reply) =>
        if reply.Success() then Listener(acc, false, "")
        else Listener(l.hotkey, false, ErrorStatus(reply.error))
  }

  /** `handleRightClick` once the unregister call, if it was made, has ended with `outcome`. */
  function RightClick(l: Listener, outcome: Outcome): (r: Listener)
    ensures l.hotkey == "" ==> r == l
    ensures l.hotkey != "" && outcome.Resolved? ==> r.hotkey == "" && r.status == "" && r.isListening == l.isListening
    ensures outcome.Rejected? ==> r == l
  {
    if l.hotkey == "" then l
    else
      match outcome
      case Rejected => l
      case Resolved(_) => l.(hotkey := "", status := "")
  }

  // ---------------------------------------------------------------- lemmas

  /** Pressing a modifier alone, whatever else is held, changes nothing: the button keeps listening. */
  lemma ModifierAloneKeepsListening(l: Listener, e: KeyEvent, outcome: Outcome)
    requires l.isListening
    requires KeyToken(e.key) in ModifierKeyNames
    ensures KeyDown(l, KeyEventToAccelerator(e), outcome) == l
  {
  }

  /**
   * A hotkey the button accepts from a key event reads back as that event's
   * Ctrl, Shift and Alt flags and its key token.
   */
  lemma AcceptedHotkeyDecodes(l: Listener, e: KeyEvent, outcome: Outcome)
    requires l.isListening && Accepted(outcome)
    requires KeyToken(e.key) !in ModifierKeyNames && e.key != "" && '+' !in e.key
    ensures var r := KeyDown(l, KeyEventToAccelerator(e), outcome);
            Decode(r.hotkey) == Some(Chord(e.ctrlKey, e.shiftKey, e.altKey, KeyToken(e.key)))
  {
    AcceleratorRoundTrip(e);
  }

  /**
   * The macro button and the main process agree: when the main process
   * accepts the accelerator both record it, and when it refuses neither
   * changes its record of the macro's hotkey.
   */
  lemma MacroButtonAgreesWithMain(l: Listener, s: Hotkeys.Slots, macroId: string, e: KeyEvent, answer: Hotkeys.HostAnswer)
    requires l.isListening
    requires KeyEventToAccelerator(e) != ""
    ensures var acc := KeyEventToAccelerator(e);
            var (s', reply) := Hotkeys.RegisterHotkey(s, macroId, acc, answer);
            var l' := KeyDown(l, acc, Resolved(reply));
            && (reply.Success() ==> l'.hotkey == acc && s'.hotkeys[macroId] == acc)
            && (!reply.Success() ==> l'.hotkey == l.hotkey && s'.hotkeys == s.hotkeys)
  {
  }

  /** After a right-click that went through, a second one sends nothing and changes nothing. */
  lemma SecondRightClickIsNoOp(l: Listener, first: Hotkeys.Reply, outcome: Outcome)
    ensures var r := RightClick(l, Resolved(first));
            r.hotkey == "" && RightClick(r, outcome) == r
  {
  }
}
