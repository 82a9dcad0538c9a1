/** The `ScreenCaptureButton` component: picks the screen-capture hotkey, and shows the last captured image. */
module ScreenCaptureButton {
  import opened Accelerator
  import opened Optional
  import opened HotkeyCapture

  class ScreenCaptureButton {
    var hotkey: string
    var isListening: bool
    var status: string
    /** The `window.api` calls made so far. */
    var calls: seq<ApiCall>
    /** The data URL of the last captured image. */
    var capturedImage: Option<string>

    ghost function View(): Listener
      reads this
    {
      Listener(hotkey, isListening, status)
    }

    constructor ()
      ensures View() == Listener("", false, "") && calls == [] && capturedImage == None
    {
      hotkey, isListening, status := "", false, "";
      calls := [];
      capturedImage := None;
    }

    /** `handleClick`: start listening for a key. */
    method HandleClick()
      modifies this
      ensures View() == Listener(old(hotkey), true, "Pressione uma tecla...") && calls == old(calls)
      ensures capturedImage == old(capturedImage)
    {
      isListening := true;
      status := "Pressione uma tecla...";
    }

    /** `handleKeyDown`, the register call ending with `outcome`. */
    method HandleKeyDown(e: KeyEvent, outcome: Outcome)
      requires isListening
      modifies this
      ensures View() == KeyDown(old(View()), KeyEventToAccelerator(e), outcome)
      ensures capturedImage == old(capturedImage)
      ensures var acc := KeyEventToAccelerator(e);
              calls == old(calls) + if acc == "" then [] else [RegisterScreenCaptureHotkey(acc)]
    {
      var accelerator := KeyEventToAccelerator(e);
      if accelerator == "" {
        return;
      }
      isListening := false;
      status := Registering;
      calls := calls + [RegisterScreenCaptureHotkey(accelerator)];
      match outcome
      case Rejected =>
      case Resolved(result) =>
        if result.Success() {
          hotkey := accelerator;
          status := "";
        } else {
          status := ErrorStatus(result.error);
        }
    }

    /**
     * The screen-capture listener. `hasContext` is whether the canvas gave a 2D
     * context; if it did, `dataUrl` is the PNG it produced from the captured pixels.
     */
    method OnScreenCapture(hasContext: bool, dataUrl: string)
      modifies this`capturedImage
      ensures capturedImage == if hasContext then Some(dataUrl) else old(capturedImage)
    {
      if hasContext {
        capturedImage := Some(dataUrl);
      }
    }

    /** `handleRightClick`, the unregister call (made only with a hotkey set) ending with `outcome`. */
    method HandleRightClick(outcome: Outcome)
      modifies this
      ensures View() == RightClick(old(View()), outcome)
      ensures capturedImage == if old(hotkey) != "" && outcome.Resolved? then None else old(capturedImage)
      ensures calls == old(calls) + if old(hotkey) == "" then [] else [UnregisterScreenCaptureHotkey]
    {
      if hotkey != "" {
        calls := calls + [UnregisterScreenCaptureHotkey];
        if outcome.Resolved? {
          hotkey := "";
          status := "";
          capturedImage := None;
        }
      }
    }
  }
}
