/** The `StopImageButton` component: picks the hotkey that stops the image search, F7 by default. */
module StopImageButton {
  import opened Accelerator
  import opened HotkeyCapture

  /** The hotkey registered when the component mounts. */
  const DefaultHotkey: string := "F7"

  class StopImageButton {
    var hotkey: string
    var isListening: bool
    var status: string
    /** The `window.api` calls made so far. */
    var calls: seq<ApiCall>

    ghost function View(): Listener
      reads this
    {
      Listener(hotkey, isListening, status)
    }

    /** Mounting the component: one attempt to register F7, which becomes the hotkey only if it is accepted. */
    constructor (outcome: Outcome)
      ensures View() == Listener(if Accepted(outcome) then DefaultHotkey else "", false, "")
      ensures calls == [RegisterStopImageSearchHotkey(DefaultHotkey)]
    {
      hotkey, isListening, status := "", false, "";
      calls := [RegisterStopImageSearchHotkey(DefaultHotkey)];
      if outcome.Resolved? && outcome.reply.Success() {
        hotkey := DefaultHotkey;
      }
    }

    /** `handleClick`: start listening for a key. */
    method HandleClick()
      modifies this
      ensures View() == Listener(old(hotkey), true, "...") && calls == old(calls)
    {
      isListening := true;
      status := "...";
    }

    /** `handleKeyDown`, the register call ending with `outcome`. */
    method HandleKeyDown(e: KeyEvent, outcome: Outcome)
      requires isListening
      modifies this
      ensures View() == KeyDown(old(View()), KeyEventToAccelerator(e), outcome)
      ensures var acc := KeyEventToAccelerator(e);
              calls == old(calls) + if acc == "" then [] else [RegisterStopImageSearchHotkey(acc)]
    {
      var accelerator := KeyEventToAccelerator(e);
      if accelerator == "" {
        return;
      }
      isListening := false;
      status := Registering;
      calls := calls + [RegisterStopImageSearchHotkey(accelerator)];
      match outcome
      case Rejected =>
      case Resolved(result) =>
        if result.Success() {
          hotkey := accelerator;
          status := "";
        } else {
          status := ErrorStatus(result.error);
        }
    }

    /** `handleRightClick`, the unregister call (made only with a hotkey set) ending with `outcome`. */
    method HandleRightClick(outcome: Outcome)
      modifies this
      ensures View() == RightClick(old(View()), outcome)
      ensures calls == old(calls) + if old(hotkey) == "" then [] else [UnregisterStopImageSearchHotkey]
    {
      if hotkey != "" {
        calls := calls + [UnregisterStopImageSearchHotkey];
        if outcome.Resolved? {
          hotkey := "";
          status := "";
        }
      }
    }
  }
}
