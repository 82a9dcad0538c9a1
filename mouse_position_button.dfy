/** The `MousePositionButton` component: picks the hotkey that reports the pointer position, and shows the last one reported. */
module MousePositionButton {
  import opened Accelerator
  import opened Optional
  import opened HotkeyCapture

  /** A pointer position in screen coordinates. */
  datatype Position = Position(x: int, y: int)

  class MousePositionButton {
    var hotkey: string
    var isListening: bool
    var status: string
    /** The `window.api` calls made so far. */
    var calls: seq<ApiCall>
    /** The last position the main process reported. */
    var position: Option<Position>

    ghost function View(): Listener
      reads this
    {
      Listener(hotkey, isListening, status)
    }

    constructor ()
      ensures View() == Listener("", false, "") && calls == [] && position == None
    {
      hotkey, isListening, status := "", false, "";
      calls := [];
      position := None;
    }

    /** `handleClick`: start listening for a key. */
    method HandleClick()
      modifies this
      ensures View() == Listener(old(hotkey), true, "Pressione uma tecla...") && calls == old(calls)
      ensures position == old(position)
    {
      isListening := true;
      status := "Pressione uma tecla...";
    }

    /** `handleKeyDown`, the register call ending with `outcome`. */
    method HandleKeyDown(e: KeyEvent, outcome: Outcome)
      requires isListening
      modifies this
      ensures View() == KeyDown(old(View()), KeyEventToAccelerator(e), outcome)
      ensures position == old(position)
      ensures var acc := KeyEventToAccelerator(e);
              calls == old(calls) + if acc == "" then [] else [RegisterMousePositionHotkey(acc)]
    {
      var accelerator := KeyEventToAccelerator(e);
      if accelerator == "" {
        return;
      }
      isListening := false;
      status := Registering;
      calls := calls + [RegisterMousePositionHotkey(accelerator)];
      match outcome
      case Rejected =>
      case Resolved(result) =>
        if result.Success() {
          hotkey := accelerator;
          status := "";
        } else {
          status := ErrorStatus(result.error);
        }
    }

    /** The `mousePosition:captured` listener. */
    method OnMousePositionCaptured(x: int, y: int)
      modifies this`position
      ensures position == Some(Position(x, y))
    {
      position := Some(Position(x, y));
    }

    /** `handleRightClick`, the unregister call (made only with a hotkey set) ending with `outcome`. */
    method HandleRightClick(outcome: Outcome)
      modifies this
      ensures View() == RightClick(old(View()), outcome)
      ensures position == if old(hotkey) != "" && outcome.Resolved? then None else old(position)
      ensures calls == old(calls) + if old(hotkey) == "" then [] else [UnregisterMousePositionHotkey]
    {
      if hotkey != "" {
        calls := calls + [UnregisterMousePositionHotkey];
        if outcome.Resolved? {
          hotkey := "";
          status := "";
          position := None;
        }
      }
    }
  }
}
