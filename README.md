# Heaven hotkey and macro core, in Dafny

This project models the sequential logic of the Heaven game-automation tool:

- **Input synthesis** (`macros.dfy`, module `Macros`). The main process drives the keyboard and mouse through nut-js. Here every such call is an event appended to a trace: `Press(keys)`, `Release(keys)`, `Type(key)`, `Wait(ms)`, `SetPos(x, y)`, `Lock(x, y)` and `Unlock`.
  - `pressKey` is `Tap`. The macros revive, heal and buff, and `executeMacro`'s lookup in the `macros` table, are exact event lists.
  - Class `InputDriver` holds the trace and a `locked` flag, which stands for `mouseLockInterval`.
  - Its methods are proved to append exactly those lists.
  - The lemmas prove the rest:
    - a key is only ever down together with its modifiers, and is released before them;
    - nothing is left held;
    - revive pins the pointer first, unpins it last, and touches it nowhere in between;
    - an unknown macro id sends no input.
- **Hotkey registry** (`hotkeys.dfy`, module `Hotkeys`). This is the `hotkey:*` and `mousePosition:*` IPC handlers and the module-level `registeredHotkeys` map and `mousePositionHotkey` slot.
  - Electron's `globalShortcut` is modelled as the set of accelerators the application holds.
  - Whether the OS grants a request is a parameter (`HostAnswer`): grant, refuse, or throw. Even when asked to grant, it never grants an accelerator it already holds or the empty one.
  - Pure step functions give each handler's effect. Class `MainHotkeys` keeps the state in fields, and each handler method is proved equal to its step function.
  - The registry is **not** injective. The code releases a macro's old accelerator before it tries the new one (`src/main/index.ts:147-150`). So a failed re-registration leaves the map naming an accelerator nobody holds, and another macro can then take it. `StaleEntryBreaksInjectivity` shows this two-step trace.
  - What the code does keep is `Valid`: no stored accelerator is empty, and every accelerator held by the OS is named by the map or by the mouse slot. Also, while an accelerator is still held, a second macro cannot take it (`HeldAcceleratorIsRefused`).
  - A failed registration is not a no-op either: the map keeps the old entry, but the OS no longer holds its accelerator (`Hotkeys.RegisterHotkey`).
- **Accelerator encoding** (`accelerator.dfy`, module `Accelerator`). `keyEventToAccelerator` appears byte-for-byte in all five renderer buttons: `MacroButton.tsx:16-43`, `MousePositionButton.tsx:10-37`, `ScreenCaptureButton.tsx:9-36`, `FindImageButton.tsx:8-35` and `StopImageButton.tsx:19-46`. It is written once here as a function, with the same branches as the source, including the F-key branch.
  - `Split` is JavaScript's `split('+')`, and `Decode` is built on it. Together they are the encoder's inverse.
  - The round trip shows that an accelerator is the Ctrl, Shift and Alt tokens for the set flags, in that order, followed by the key token. Meta is never included.
- **Hotkey buttons** (`hotkey_capture.dfy` and one file per component). All five components react to a keydown in the same way, as a small state machine (`HotkeyCapture.KeyDown`, `HotkeyCapture.RightClick`).
  - A key that encodes to "" is ignored.
  - Any other key stops the listening and makes exactly one register call. The key becomes the hotkey only if the call resolves with success.
  - Each component is a class with its React state as fields. It also keeps the list of `window.api` calls it has made. Its handlers are proved to follow the state machine.
  - A `window.api` call can resolve with the main process's reply or reject (`Outcome.Rejected`).
  - The preload script (`src/preload/index.ts:5-25`) defines only the macro and mouse-position calls. `registerScreenCaptureHotkey`, `registerFindImageHotkey` and `registerStopImageSearchHotkey`, their unregister partners, and `onScreenCapture`/`removeScreenCaptureListener` do not exist there.
    - A keydown on the find-image or stop-search button therefore takes the rejected path. Its status stays at "Registrando..." and no hotkey is stored. The stop-search button's F7 request at mount is likewise never granted.
    - The screen-capture button's mount effect calls the missing `window.api.onScreenCapture` (`src/renderer/src/components/ScreenCaptureButton.tsx:66`). It throws a TypeError before any keydown, so its capture listener is never installed. Its keydown handler is modelled for every outcome, including that rejection.

Files: `optional.dfy`, `accelerator.dfy`, `macros.dfy`, `hotkeys.dfy`, `hotkey_capture.dfy`, `macro_button.dfy`, `mouse_position_button.dfy`, `screen_capture_button.dfy`, `find_image_button.dfy`, `stop_image_button.dfy`.

## Model

| member | source | states |
|---|---|---|
| Accelerator.ToUpper | src/renderer/src/components/MacroButton.tsx:31 | `toUpperCase` keeps the length, upper-cases each ASCII letter in place, and leaves no lower-case letter |
| Accelerator.ModifierTokens | src/renderer/src/components/MacroButton.tsx:19-21 | "Ctrl", "Shift", "Alt" are present exactly when their flag is set, one each, always in the order Ctrl < Shift < Alt |
| Accelerator.KeyEventToAccelerator | src/renderer/src/components/MacroButton.tsx:16-43 | a key whose token is CONTROL, SHIFT, ALT or META gives "" whatever is held; otherwise the result is the encoding of (Ctrl, Shift, Alt, key token); it is "" only for those modifier keys or an empty key with no modifiers |
| Accelerator.FKeyBranchIsNeutral | src/renderer/src/components/StopImageButton.tsx:40-42 | the F-key branch re-computes the token the key map already gave, so F-keys are not changed by it |
| Accelerator.KeyTokens | src/renderer/src/components/MousePositionButton.tsx:17-25 | " " becomes Space, ArrowUp/Down/Left/Right become Up/Down/Left/Right, every other key its upper-cased form |
| Accelerator.SplitJoin | src/renderer/src/components/FindImageButton.tsx:33-34 | `split('+')` undoes `join('+')` when no part contains '+' |
| Accelerator.JoinSplit | src/renderer/src/components/FindImageButton.tsx:33-34 | `join('+')` undoes `split('+')` for every string |
| Accelerator.Decode | src/renderer/src/components/ScreenCaptureButton.tsx:34-35 | a decoded accelerator re-encodes to the same string |
| Accelerator.DecodeEncode | src/renderer/src/components/ScreenCaptureButton.tsx:9-35 | decoding the encoding of modifiers then key gives back those modifiers and that key |
| Accelerator.AcceleratorRoundTrip | src/renderer/src/components/MousePositionButton.tsx:10-37 | the accelerator of a non-modifier key (without '+') decodes to the Ctrl/Shift/Alt flags of the event and its key token: modifiers in order, then the key, joined by '+' |
| Accelerator.AcceleratorInjective | src/renderer/src/components/ScreenCaptureButton.tsx:9-36 | two such events give the same accelerator exactly when they agree on Ctrl, Shift, Alt and the key token |
| Accelerator.EndsWithKeyToken | src/renderer/src/components/StopImageButton.tsx:44-45 | the joined result ends with the key token, preceded by '+' when there are modifier tokens |
| Accelerator.MetaIgnored | src/renderer/src/components/FindImageButton.tsx:8-13 | `metaKey` never changes the accelerator |
| Macros.Tap | src/main/index.ts:18-29 | a `pressKey` call ends with Wait(100) and never touches the pointer |
| Macros.TapNests | src/main/index.ts:19-27 | along `pressKey`'s events the held keys go: before, +modifiers, +modifiers+key, +modifiers, before; so the key is released before the modifiers and nothing stays held |
| Macros.TapProfileWithModifiers | src/main/index.ts:20-23 | the exact held-keys profile of press(mods), press(k), release(k), release(mods), wait |
| Macros.TapProfileAlone | src/main/index.ts:25-26 | the exact held-keys profile of press(k), release(k), wait |
| Macros.TapsReleaseAll | src/main/index.ts:57-61 | a run of `pressKey` calls leaves held exactly what was held before |
| Macros.TapsLeavePointer | src/main/index.ts:57-61 | a run of `pressKey` calls sends no pointer event |
| Macros.ReviveTaps | src/main/index.ts:56-62 | revive's events are the pin, the run of `pressKey` calls over its five chords (Ctrl+1, Shift+0, Ctrl+1, Shift+S, Alt+3), then the unpin |
| Macros.ReviveKeepsPointerLocked | src/main/index.ts:55-63 | revive moves and pins the pointer at (58,77) first, unpins it last, neither moves, pins nor unpins it in between, and leaves no key held |
| Macros.ExecuteMacroEvents | src/main/index.ts:85-92 | a known id runs its table entry; the events are empty exactly when the id is not in the table |
| Macros.ExecuteMacroSilentOnlyForUnknownIds | src/main/index.ts:78-82 | revive, heal (types H) and buff (types J) produce input; any other id produces none |
| Macros.InputDriver.constructor | src/main/index.ts:32 | empty trace, no lock timer |
| Macros.InputDriver.PressKey | src/main/index.ts:18-29 | appends exactly `Tap(key, modifiers)`; the lock is untouched |
| Macros.InputDriver.LockMouseAt | src/main/index.ts:35-45 | appends SetPos(x,y), Lock(x,y); the lock timer runs |
| Macros.InputDriver.UnlockMouse | src/main/index.ts:48-53 | afterwards no lock timer; Unlock is sent only if one was running |
| Macros.UnlockMouseTwice | src/main/index.ts:48-53 | a second `unlockMouse` sends nothing: the pair does what one call does |
| Macros.InputDriver.MacroRevive | src/main/index.ts:55-63 | appends exactly `ReviveEvents()` (lock, Ctrl+1, Shift+0, Ctrl+1, Shift+S, Alt+3, unlock) and ends unlocked |
| Macros.InputDriver.MacroHeal | src/main/index.ts:65-69 | appends Type(H) |
| Macros.InputDriver.MacroBuff | src/main/index.ts:71-75 | appends Type(J) |
| Macros.InputDriver.ExecuteMacro | src/main/index.ts:85-92 | appends `ExecuteMacroEvents(id)`; only revive changes the lock, leaving it off |
| Hotkeys.RegisterHotkey | src/main/index.ts:144-169 | success exactly when the OS grants the accelerator after the old one was released; success stores id ↦ acc and replies `{success:true,key:acc}`; failure (refusal or exception) keeps the map; either way every other id's entry and the mouse slot are kept, and the OS-held set afterwards is the old set minus the macro's old accelerator, plus acc on success |
| Hotkeys.UnregisterHotkey | src/main/index.ts:172-179 | always replies success; the id has no accelerator afterwards and the OS no longer holds its old one; other ids, the slot and every other held accelerator are untouched; a no-op when the id had none |
| Hotkeys.RegisterMousePosition | src/main/index.ts:182-210 | releases the slot's accelerator first; success stores the new one in the slot and replies it; failure keeps the slot value; the map is kept, and the OS-held set afterwards is the old set minus the slot's accelerator, plus acc on success |
| Hotkeys.UnregisterMousePosition | src/main/index.ts:213-219 | always replies success, leaves the slot empty, releases only the slot's accelerator, keeps the map, and is a no-op when the slot already was empty |
| Hotkeys.HandlersKeepValid | src/main/index.ts:144-219 | every handler keeps: no empty accelerator stored, and every OS-held accelerator named by the map or the slot |
| Hotkeys.UnregisterHotkeyForgets | src/main/index.ts:172-179 | the id is gone afterwards, and unregistering twice equals unregistering once |
| Hotkeys.UnregisterMousePositionIdempotent | src/main/index.ts:213-219 | the slot is null afterwards, and a second call changes nothing |
| Hotkeys.HeldAcceleratorIsRefused | src/main/index.ts:153-164 | while one macro's accelerator is held, registering it for another macro fails and keeps the first entry |
| Hotkeys.StaleEntryBreaksInjectivity | src/main/index.ts:147-159 | revive:F1 granted, revive:F2 refused (F1 already released), heal:F1 granted: two ids name F1 |
| Hotkeys.MainHotkeys.constructor | src/main/index.ts:12-15 | empty map, null slot, no OS shortcut |
| Hotkeys.MainHotkeys.BindShortcut | src/main/index.ts:153-156 | binds exactly when granted |
| Hotkeys.MainHotkeys.UnbindShortcut | src/main/index.ts:149 | the accelerator is no longer held |
| Hotkeys.MainHotkeys.HandleRegisterHotkey | src/main/index.ts:144-169 | state and reply are those of `RegisterHotkey` |
| Hotkeys.MainHotkeys.HandleUnregisterHotkey | src/main/index.ts:172-179 | state and reply are those of `UnregisterHotkey` |
| Hotkeys.MainHotkeys.HandleRegisterMousePosition | src/main/index.ts:182-210 | state and reply are those of `RegisterMousePosition` |
| Hotkeys.MainHotkeys.HandleUnregisterMousePosition | src/main/index.ts:213-219 | state and reply are those of `UnregisterMousePosition` |
| HotkeyCapture.KeyDown | src/renderer/src/components/MacroButton.tsx:49-67 | an empty accelerator leaves everything as it was (still listening); any other stops the listening; the hotkey becomes acc exactly on a successful reply and is otherwise unchanged; the status becomes "" on success and "Erro: " followed by the reply's error on failure; a rejected call leaves it "Registrando..." |
| HotkeyCapture.RightClick | src/renderer/src/components/MacroButton.tsx:78-85 | with no hotkey, or when the unregister call rejects, nothing changes; with a hotkey and a resolved call, hotkey and status are cleared |
| HotkeyCapture.ModifierAloneKeepsListening | src/renderer/src/components/MousePositionButton.tsx:54-58 | a modifier pressed alone, whatever is held, leaves the button listening and unchanged |
| HotkeyCapture.AcceptedHotkeyDecodes | src/renderer/src/components/FindImageButton.tsx:40-54 | an accepted hotkey decodes to the event's Ctrl/Shift/Alt flags and key token |
| HotkeyCapture.MacroButtonAgreesWithMain | src/renderer/src/components/MacroButton.tsx:58-62 | on success both the button and the main map record acc; on failure neither changes |
| HotkeyCapture.SecondRightClickIsNoOp | src/renderer/src/components/MacroButton.tsx:78-85 | after a resolved right-click the hotkey is "" and another right-click changes nothing |
| MacroButton.MacroButton.constructor | src/renderer/src/components/MacroButton.tsx:11-13 | no hotkey, not listening, empty status, no calls |
| MacroButton.MacroButton.HandleClick | src/renderer/src/components/MacroButton.tsx:73-76 | listening, status "...", hotkey kept |
| MacroButton.MacroButton.HandleKeyDown | src/renderer/src/components/MacroButton.tsx:49-67 | follows `KeyDown`; `registerHotkey(macroId, acc)` is called once exactly when acc is not "" |
| MacroButton.MacroButton.HandleRightClick | src/renderer/src/components/MacroButton.tsx:78-85 | follows `RightClick`; `unregisterHotkey(macroId)` is called exactly when a hotkey is set |
| MousePositionButton.MousePositionButton.constructor | src/renderer/src/components/MousePositionButton.tsx:4-7 | no hotkey, not listening, no position, no calls |
| MousePositionButton.MousePositionButton.HandleClick | src/renderer/src/components/MousePositionButton.tsx:78-81 | listening, status "Pressione uma tecla..." |
| MousePositionButton.MousePositionButton.HandleKeyDown | src/renderer/src/components/MousePositionButton.tsx:54-72 | follows `KeyDown`; `registerMousePositionHotkey(acc)` is called exactly when acc is not "" |
| MousePositionButton.MousePositionButton.OnMousePositionCaptured | src/renderer/src/components/MousePositionButton.tsx:40-43 | the reported position is shown |
| MousePositionButton.MousePositionButton.HandleRightClick | src/renderer/src/components/MousePositionButton.tsx:83-91 | follows `RightClick`, and also clears the position; unregisters exactly when a hotkey is set |
| ScreenCaptureButton.ScreenCaptureButton.constructor | src/renderer/src/components/ScreenCaptureButton.tsx:4-7 | no hotkey, not listening, no image, no calls |
| ScreenCaptureButton.ScreenCaptureButton.HandleClick | src/renderer/src/components/ScreenCaptureButton.tsx:93-96 | listening, status "Pressione uma tecla..." |
| ScreenCaptureButton.ScreenCaptureButton.HandleKeyDown | src/renderer/src/components/ScreenCaptureButton.tsx:41-59 | follows `KeyDown`; `registerScreenCaptureHotkey(acc)` is called exactly when acc is not "" |
| ScreenCaptureButton.ScreenCaptureButton.OnScreenCapture | src/renderer/src/components/ScreenCaptureButton.tsx:65-86 | with a 2D canvas context the captured image's data URL is shown; without one the shown image is unchanged |
| ScreenCaptureButton.ScreenCaptureButton.HandleRightClick | src/renderer/src/components/ScreenCaptureButton.tsx:98-106 | follows `RightClick`, and also clears the captured image; unregisters exactly when a hotkey is set |
| FindImageButton.FindImageButton.constructor | src/renderer/src/components/FindImageButton.tsx:4-6 | no hotkey, not listening, no calls |
| FindImageButton.FindImageButton.HandleClick | src/renderer/src/components/FindImageButton.tsx:64-67 | listening, status "..." |
| FindImageButton.FindImageButton.HandleKeyDown | src/renderer/src/components/FindImageButton.tsx:40-58 | follows `KeyDown`; `registerFindImageHotkey(acc)` is called exactly when acc is not "" |
| FindImageButton.FindImageButton.HandleRightClick | src/renderer/src/components/FindImageButton.tsx:69-76 | follows `RightClick`; unregisters exactly when a hotkey is set |
| StopImageButton.StopImageButton.constructor | src/renderer/src/components/StopImageButton.tsx:9-17 | on mount F7 is requested once and becomes the hotkey only if the reply is a success |
| StopImageButton.StopImageButton.HandleClick | src/renderer/src/components/StopImageButton.tsx:75-78 | listening, status "..." |
| StopImageButton.StopImageButton.HandleKeyDown | src/renderer/src/components/StopImageButton.tsx:51-69 | follows `KeyDown`; `registerStopImageSearchHotkey(acc)` is called exactly when acc is not "" |
| StopImageButton.StopImageButton.HandleRightClick | src/renderer/src/components/StopImageButton.tsx:80-87 | follows `RightClick`; unregisters exactly when a hotkey is set |

## Left out

- Macros.InputDriver.MacroRevive: nut-js calls are modelled as always succeeding. In the source, a rejected `keyboard.pressKey` or `releaseKey` during revive (`src/main/index.ts:57-61`) propagates out of `macroRevive`, which has no `finally`. `unlockMouse()` at line 62 then never runs, so the 10 ms timer keeps pinning the pointer at (58, 77). A modifier pressed at line 20 can also stay held. The guarantees of `Macros.InputDriver.MacroRevive`, `Macros.ReviveKeepsPointerLocked` and `Macros.TapNests` ("ends unlocked", "no key left held") hold only for runs in which every input call succeeds.
- ScreenCaptureButton.ScreenCaptureButton.OnScreenCapture: this models a listener that the source never installs, because `window.api.onScreenCapture` is missing from the preload object and the mount effect throws at `src/renderer/src/components/ScreenCaptureButton.tsx:66`. The cleanup at line 89 calls the equally missing `removeScreenCaptureListener`. The `if (ctx)` guard at line 74 is kept as a parameter. React's handling of the thrown error is not modelled (`src/renderer/src/App.tsx` has no error boundary).
- The 10 ms `setInterval` that keeps moving the pointer back (`src/main/index.ts:42-44`) is not modelled. It is timer-driven and is reduced to the `Lock` event and the `locked` flag.
- The un-awaited `lockMouseAt` call in revive (`src/main/index.ts:56`) is not modelled as concurrent. In the model it completes before the first key press.
- A `lockMouseAt` call while a lock timer already runs loses the earlier timer in the source. The model's single `locked` flag does not track that lost timer. Only overlapping macro runs can reach this case.
- Real elapsed time is not modelled. The 100 ms sleep is a `Wait(100)` event.
- Concurrent or overlapping macro runs and IPC handlers are not modelled.
- `console.log` and `console.error` output is not modelled.
- The callbacks the OS runs when a hotkey fires are not modelled. These are the call to `executeMacro` and the broadcast of `mouse.getPosition` (`src/main/index.ts:153-156`, `190-197`). They are foreign-library and window plumbing.
- `globalShortcut.unregisterAll` at quit is not modelled. The Electron window lifecycle and IPC wiring are not modelled either.
- Hotkeys.RegisterHotkey: registering the empty accelerator makes Electron throw. The model treats it as a refusal, so the error text is the fixed message and not the exception's text. `Hotkeys.RegisterMousePosition` does the same.
- Macros.ExecuteMacroEvents: an id that names an inherited object property, such as `toString`, finds a non-macro function in the source. Calling it sends no input. The model treats such an id as unknown, which has the same observable result (no input). It does not model the skipped error log.
- Accelerator.ToUpper: only ASCII letters are upper-cased. Full Unicode `toUpperCase`, and lengths counted in UTF-16 units, are not modelled.
- Accelerator.KeyToken: inherited object properties of the key map, for a key named `constructor` say, are not modelled. Browsers never produce such key values.
- React rendering, styles and the 2-second `setTimeout` that clears the status line are not modelled.
- The effect that adds and removes the keydown listener is not modelled. The model assumes that a keydown only arrives while the button is listening.
- The canvas conversion of RGBA pixels to a PNG data URL (`src/renderer/src/components/ScreenCaptureButton.tsx:68-84`) is not modelled. The data URL is a parameter of `OnScreenCapture`.
- Image search has no implementation in the source. `src/preload/index.d.ts:10-15` declares only the screen-capture and find-image entry points, and the stop-search one is declared nowhere (the components at `src/renderer/src/components/StopImageButton.tsx:11` and `:60` call it all the same). The template matcher, the screen-region cache, the search-and-click loop with its stop flag, and a combo macro are not modelled.
- `src/renderer/src/App.tsx` only composes the components and is not modelled.
