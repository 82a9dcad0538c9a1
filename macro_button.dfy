/** The `MacroButton` component: picks the global hotkey of one macro. */
module MacroButton {
  import opened Accelerator
  import opened HotkeyCapture

  class MacroButton {
    const macroId: string
    var hotkey: string
    var isListening: bool
    var status: string
    /** The `window.api` calls made so far. */
    var calls: seq<ApiCall>

    ghost function View(): Listener
      reads this
    {
      Listener(hotkey, isListening, status)
    }

    constructor (macroId: string)
      ensures this.macroId == macroId
      ensures View() == Listener("", false, "") && calls == []
    {
      this.macroId := macroId;
      hotkey, isListening, status := "", false, "";
      calls := [];
    }

    /** `handleClick`: start listening for a key. */
    method HandleClick()
      modifies this
      ensures View() == Listener(old(hotkey), true, "...") && calls == old(calls)
    {
      isListening := true;
      status := "...";
    }

    /** `handleKeyDown`, the register call ending with `outcome`. */
    method HandleKeyDown(e: KeyEvent, outcome: Outcome)
      requires isListening
      modifies this
      ensures View() == KeyDown(old(View()), KeyEventToAccelerator(e), outcome)
      ensures var acc := KeyEventToAccelerator(e);
              calls == old(calls) + if acc == "" then [] else [RegisterHotkey(macroId, acc)]
    {
      var accelerator := KeyEventToAccelerator(e);
      if accelerator == "" {
        return;
      }
      isListening := false;
      status := Registering;
      calls := calls + [RegisterHotkey(macroId, accelerator)];
      match outcome
      case Rejected =>
      case Resolved(result) =>
        if result.Success() {
          hotkey := accelerator;
          status := "";
        } else {
          status := ErrorStatus(result.error);
        }
    }

    /** `handleRightClick`, the unregister call (made only with a hotkey set) ending with `outcome`. */
    method HandleRightClick(outcome: Outcome)
      modifies this
      ensures View() == RightClick(old(View()), outcome)
      ensures calls == old(calls) + if old(hotkey) == "" then [] else [UnregisterHotkey(macroId)]
    {
      if hotkey != "" {
        calls := calls + [UnregisterHotkey(macroId)];
        if outcome.Resolved? {
          hotkey := "";
          status := "";
        }
      }
    }
  }
}
