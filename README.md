# PlayerLocalController: the input-to-action state machine

WebMC's `PlayerLocalController` turns raw input into first-person game actions.
The inputs are pointer-lock mouse movement, mouse buttons, the keyboard, the wheel
and touch streams. The actions are look, block placing and destroying, the inventory
key, the fly and run double-press toggles and hotbar selection. This project models
its handlers and proves what they promise.

- **Pure pieces become functions.** These are the `locked` gate, the placement
  target and the player-box guard of `destroyOrPlaceBlock`, the default `code` and
  `keyCode` of `dispatchKeyEvent`, the key list of each move-panel button, the
  double-press test, the pitch clamp and the touch classification.
  - Modules: `KeyEvents`, `KeyTable`, `Placement`, `Gestures`.
- **The handlers become functions over one state value.** The value `Ctl` holds
  the controller's fields, the entity fields the handlers touch, the world's cells
  and a log of the calls made on the UI.
  - Modules: `ControllerSpec`, with one function per handler.
  - `Step` and `Run` apply events in order.
- **The handlers are also a class that updates its fields in place.**
  - Module: `LocalController`, class `PlayerLocalController`.
  - The class keeps the source's fields in the same groups as `Ctl`: the
    bindings, the lock state, the button intents, the timer table, the
    keyboard bookkeeping and the touch session. A handler updates the
    sub-field it changes.
  - Each method is proved to leave the object in the state the matching
    `ControllerSpec` function computes.
  - Each method keeps the invariant `ControllerSpec.Valid`.
- **The properties are lemmas over those functions.**
  - Modules: `ControllerInvariant`, `ControllerProps`.

The clock (`new Date()`), the raycast result and the player's rounded bounding box
are inputs. The browser's timers are handles drawn from a counter and kept in sets
of live intervals and timeouts. A timer firing is an explicit method,
`FireRepeat` or `FireLongPress`. A synthesized mouse event is a direct call of the
mouse handler.

Some behaviours of the code are easy to miss; the model keeps each of them:

- **The double-press test** (line 207) needs `spaceDownTime - spaceUpTime < 0`:
  the key must have been let go after its last press. The gap from that press
  to the new one must also be more than 90 ms and less than 250 ms. A key
  never let go, or let go only before its last press, never toggles.
- **`setCanvas`** (lines 65-66) clears only the long-press timeout
  (`canvasTouchTimer`). A held place or destroy keeps its repeat interval
  across rebinding.
- **`touchend`** (lines 295-307) clears the long-press timeout and forgets the
  last sample. It keeps the start sample, the travelled distance, the
  destroying flag and the (now dead) timer handle.
- **Auto-repeat.** `e.repeat` is read only in the touch-device count branch
  (line 195). The double-press test and the desktop flags treat an
  auto-repeat press like any other.
- **A release after a lost lock** (line 177). `mouseup` returns at once while
  input is inactive, so it does not stop the repeat interval started at lines
  172-174. When the pointer lock is lost while a button is held and the button
  is let go afterwards, the interval keeps firing and keeps destroying or
  placing during the pause (`ControllerProps.LostLockKeepsRepeating`).
  `ControllerProps.InactiveInputIgnored` therefore says nothing about
  `FireRepeat`.

## Model

All source paths are `src/Entity/PlayerLocalController.js`.

| member | source | states |
|---|---|---|
| LocalController.PlayerLocalController.constructor | src/Entity/PlayerLocalController.js:7-26 | the fresh controller is unlocked, holds no intents, timers or keys, has no touch session and satisfies the invariant |
| LocalController.PlayerLocalController.Locked | src/Entity/PlayerLocalController.js:56-58 | input is active on a touch device or under pointer lock |
| ControllerProps.TouchAlwaysActive | src/Entity/PlayerLocalController.js:56-58 | on a touch device input is always active and requesting the pointer lock does nothing |
| LocalController.PlayerLocalController.SetCanvas | src/Entity/PlayerLocalController.js:59-79 | unbinding a canvas clears the long-press timeout and its handle; the new binding is recorded |
| ControllerProps.SetCanvasClearsOnlyLongPress | src/Entity/PlayerLocalController.js:59-67 | after rebinding no long-press timeout is live, while the repeat interval and the intents are unchanged |
| LocalController.PlayerLocalController.SetMoveBtns | src/Entity/PlayerLocalController.js:80-83 | the move panel's binding is recorded and nothing else changes |
| KeyEvents.ButtonKeys | src/Entity/PlayerLocalController.js:84-96 | each panel button sends one or two keys |
| KeyEvents.ButtonCodes | src/Entity/PlayerLocalController.js:84-96 | every panel key has a non-zero key code and is no auto-repeat; a KeyW code is sent exactly by up, upleft and upright; Space exactly by jump and flyup |
| KeyEvents.ReleaseMirrorsPress | src/Entity/PlayerLocalController.js:97-103 | a button's release sends the events of its press in the opposite order |
| LocalController.PlayerLocalController.MoveButtonPress | src/Entity/PlayerLocalController.js:97-99 | the button's keys go down in order (nothing without a canvas) |
| LocalController.PlayerLocalController.PressKeysInOrder | src/Entity/PlayerLocalController.js:98 | the loop dispatches the keys in order as key-down events |
| LocalController.PlayerLocalController.MoveButtonUp | src/Entity/PlayerLocalController.js:100-103 | the button's keys go up last-first (nothing without a canvas) |
| LocalController.PlayerLocalController.ReleaseKeysReversed | src/Entity/PlayerLocalController.js:101-102 | the loop dispatches the keys from the last one down as key-up events |
| ControllerProps.SpaceButton | src/Entity/PlayerLocalController.js:84-99 | the jump and flyup buttons each send exactly a Space press and release |
| ControllerProps.MoveButtonsNeedCanvas | src/Entity/PlayerLocalController.js:97-103 | without a canvas a panel button changes nothing |
| ControllerProps.MoveButtonCountsRestored | src/Entity/PlayerLocalController.js:97-103 | on a touch device pressing and releasing any panel button gives every key slot its count back |
| LocalController.PlayerLocalController.FlyButtonDoublePress | src/Entity/PlayerLocalController.js:105-109 | the fly button's double press leaves fly mode and unlights the button |
| ControllerProps.FlyButtonLeavesFly | src/Entity/PlayerLocalController.js:105-109 | afterwards fly mode is off, run mode is unchanged and the button is unlit when a panel is bound |
| LocalController.PlayerLocalController.RequestPointerLock | src/Entity/PlayerLocalController.js:111-114 | the lock is requested only with a canvas and off touch devices |
| LocalController.PlayerLocalController.SelectBlock | src/Entity/PlayerLocalController.js:46-48 | the held item becomes the selected block, or air for an empty slot |
| LocalController.PlayerLocalController.MouseMove | src/Entity/PlayerLocalController.js:125-135 | while active, yaw turns against the horizontal move and pitch against the vertical move, then pitch is clamped; otherwise nothing changes |
| Gestures.ClampPitch | src/Entity/PlayerLocalController.js:131-134 | the result lies in [-pi/2, pi/2] and is the point of that range nearest to the input |
| ControllerProps.LookClamped | src/Entity/PlayerLocalController.js:125-135 | after an active move the pitch is the clamped, nearest in-range value and only the entity's look changes |
| ControllerProps.RunKeepsPitch | src/Entity/PlayerLocalController.js:125-135 | once the pitch is in range, no sequence of events moves it out |
| ControllerProps.StepKeepsPitch | src/Entity/PlayerLocalController.js:125-135 | no single event moves an in-range pitch out of range |
| ControllerProps.LostLockKeepsRepeating | src/Entity/PlayerLocalController.js:166-184 | a button held across a lost lock and let go while inactive leaves the repeat interval live, and its next firing still writes air at the struck cell |
| ControllerProps.InactiveInputIgnored | src/Entity/PlayerLocalController.js:136-140 | while inactive, moves, releases, key releases and the wheel change nothing; a key press can only close the inventory; a mouse press only requests the lock |
| ControllerProps.OtherButtonsIgnored | src/Entity/PlayerLocalController.js:141 | while active, buttons other than 0 and 2 change nothing on press or release |
| LocalController.PlayerLocalController.MouseDown | src/Entity/PlayerLocalController.js:136-175 | arms destroy for button 0 and place for button 2, runs one tick, replaces the repeat interval |
| LocalController.PlayerLocalController.RestartRepeatTimer | src/Entity/PlayerLocalController.js:172-174 | the old repeat interval is cleared and a new one started |
| ControllerProps.MouseDownArms | src/Entity/PlayerLocalController.js:141-174 | the intents become set, the world gets exactly the tick's write, and a single repeat interval with a never-used handle is live |
| LocalController.PlayerLocalController.DestroyOrPlaceBlock | src/Entity/PlayerLocalController.js:154-169 | the world changes by exactly the write the tick computes |
| Placement.AxisIndex | src/Entity/PlayerLocalController.js:157 | the index of the face letter in "xyz", or -1 |
| Placement.PlacementCell | src/Entity/PlayerLocalController.js:155-157 | the struck cell moved by one along the struck axis, outward unless the face is '-'; other coordinates unchanged; for a face letter outside xyz the struck cell itself |
| Placement.GuardIsOverlap | src/Entity/PlayerLocalController.js:158-163 | the rounded-box test rejects exactly the cells whose unit cube overlaps the player's real box |
| Placement.TickWrite | src/Entity/PlayerLocalController.js:154-169 | no hit, empty face or no intent means no write; place wins; a place writes the held item unless the target is in the box or the item is air; a destroy writes air at the struck cell |
| Placement.ApplyWrite | src/Entity/PlayerLocalController.js:165-168 | the written cell holds the new name and no other cell changes |
| Placement.DestroyIgnoresBox | src/Entity/PlayerLocalController.js:167-168 | a destroy does not depend on the player's box or held item |
| Placement.PlaceGuardExamples | src/Entity/PlayerLocalController.js:157-165 | placing on the block under the player's feet is refused; placing beside the player succeeds, also with destroy armed |
| LocalController.PlayerLocalController.MouseUp | src/Entity/PlayerLocalController.js:176-184 | while active, disarms its button's intent and clears the repeat interval when no intent remains |
| ControllerProps.MouseUpDisarms | src/Entity/PlayerLocalController.js:176-184 | only the released button's intent is cleared; no repeat interval is live exactly when no intent remains |
| ControllerProps.BothButtonsReleased | src/Entity/PlayerLocalController.js:136-184 | pressing both buttons and releasing both, in either order, leaves no repeat interval |
| LocalController.PlayerLocalController.FireRepeat | src/Entity/PlayerLocalController.js:174 | a live repeat interval runs one tick |
| ControllerProps.RepeatFireTicks | src/Entity/PlayerLocalController.js:144-174 | a firing changes only the world, with the tick of the intents held at that moment |
| ControllerInvariant.MouseDownValid | src/Entity/PlayerLocalController.js:136-175 | mousedown keeps the invariant |
| ControllerInvariant.MouseUpValid | src/Entity/PlayerLocalController.js:176-184 | mouseup keeps the invariant |
| ControllerInvariant.StepValid | src/Entity/PlayerLocalController.js:136-319 | every handler keeps the invariant |
| ControllerInvariant.RunValid | src/Entity/PlayerLocalController.js:172-183 | after any events, the repeat interval is live exactly while an intent is held and at most one repeat interval and one long-press timeout are live |
| ControllerInvariant.AtMostOneTimer | src/Entity/PlayerLocalController.js:172-174 | in a valid state at most one interval and one timeout are live |
| LocalController.PlayerLocalController.KeyDown | src/Entity/PlayerLocalController.js:185-230 | the inventory key, then while active the key bookkeeping and the Space and KeyW toggles |
| LocalController.PlayerLocalController.InventoryKey | src/Entity/PlayerLocalController.js:186-192 | E shows the inventory and disarms the pause page while active, and closes it otherwise |
| LocalController.PlayerLocalController.PressKey | src/Entity/PlayerLocalController.js:194-203 | the key table becomes its press update |
| KeyTable.PressHolds | src/Entity/PlayerLocalController.js:194-203 | a press changes only the event's slots, leaves them held and keeps the table's shape; a touch auto-repeat changes nothing |
| KeyTable.ReleaseFrees | src/Entity/PlayerLocalController.js:233-240 | a release changes only the event's slots, keeps counts non-negative and on a desktop frees them |
| KeyTable.TouchPressCounts | src/Entity/PlayerLocalController.js:195-198 | a touch press that is no auto-repeat raises the key-code slot by one and sets the key and code slots both to the key slot's count plus one |
| KeyTable.TouchReleaseCounts | src/Entity/PlayerLocalController.js:233-236 | a touch release lowers the key-code slot by one and sets the key and code slots both to the key slot's count less one, never below zero |
| KeyTable.PressThenRelease | src/Entity/PlayerLocalController.js:194-198 | on a touch device a press and its release give every slot its count back |
| KeyTable.PressAllThenReleaseReversed | src/Entity/PlayerLocalController.js:97-103 | pressing independent keys and releasing them last-first restores every count |
| KeyTable.MoveButtonRoundTrip | src/Entity/PlayerLocalController.js:97-103 | a panel button's keys pressed and released restore every count |
| KeyTable.PressAllWellFormed | src/Entity/PlayerLocalController.js:194-203 | a run of presses keeps the table's shape |
| KeyTable.ReleaseAllWellFormed | src/Entity/PlayerLocalController.js:233-240 | a run of releases keeps the table's shape |
| LocalController.PlayerLocalController.SpaceKeyDown | src/Entity/PlayerLocalController.js:204-218 | records whether this is a double press, toggles fly and lights the button if so, stamps the press time |
| LocalController.PlayerLocalController.MoveKeyDown | src/Entity/PlayerLocalController.js:219-229 | records whether this is a double press, toggles run if so, stamps the press time |
| Gestures.DoublePressMeaning | src/Entity/PlayerLocalController.js:207 | a double press needs both stamps, the release after the press, and a new press strictly 90 to 250 ms after the last |
| Gestures.DoublePressExamples | src/Entity/PlayerLocalController.js:207 | gaps of 80 and 260 ms do not toggle, 150 ms does, 150 ms without a release does not |
| ControllerProps.SpaceToggle | src/Entity/PlayerLocalController.js:204-218 | Space toggles fly exactly on a double press, lights the button to the new mode, and stamps its time either way |
| ControllerProps.RunToggle | src/Entity/PlayerLocalController.js:219-229 | KeyW toggles run exactly on a double press and stamps its time either way |
| ControllerProps.FirstPressNeverToggles | src/Entity/PlayerLocalController.js:205-207 | before the first press, no key toggles a mode |
| ControllerProps.DoublePressScenario | src/Entity/PlayerLocalController.js:204-241 | Space down, up, down toggles fly exactly when the release followed the press and the gap is strictly between 90 and 250 ms |
| ControllerInvariant.KeyDownValid | src/Entity/PlayerLocalController.js:185-230 | keydown keeps the invariant |
| LocalController.PlayerLocalController.KeyUp | src/Entity/PlayerLocalController.js:231-246 | while active, the release bookkeeping and the release stamps |
| LocalController.PlayerLocalController.ReleaseKey | src/Entity/PlayerLocalController.js:233-240 | the key table becomes its release update |
| LocalController.PlayerLocalController.ReleaseStamps | src/Entity/PlayerLocalController.js:241-245 | stamps the Space release unless Space is held, and the W release unless W is held, leaving run mode |
| ControllerProps.KeyUpStamps | src/Entity/PlayerLocalController.js:231-246 | each release time is stamped exactly when its key is no longer held; run mode ends exactly then for W |
| ControllerProps.DesktopKeyUp | src/Entity/PlayerLocalController.js:237-245 | on a desktop, releasing frees the event's slots; Space and W releases are stamped and W leaves run mode |
| ControllerProps.OverlappingSpaceButtons | src/Entity/PlayerLocalController.js:194-198 | on touch, Space stays held until both of jump and flyup are let go; on a desktop the first release frees it |
| ControllerProps.KeysDownTable | src/Entity/PlayerLocalController.js:97-99 | dispatched key presses act on the key table as the presses in order, and leave the timers, intents and world alone |
| ControllerProps.KeysUpTable | src/Entity/PlayerLocalController.js:100-103 | dispatched key releases act on the key table as the releases in order |
| ControllerInvariant.KeyUpValid | src/Entity/PlayerLocalController.js:231-246 | keyup keeps the invariant |
| ControllerInvariant.KeysDownValid | src/Entity/PlayerLocalController.js:97-99 | a panel press keeps the invariant |
| ControllerInvariant.KeysUpValid | src/Entity/PlayerLocalController.js:100-103 | a panel release keeps the invariant |
| LocalController.PlayerLocalController.Wheel | src/Entity/PlayerLocalController.js:247-260 | while active and not rate-limited, selects next or previous by the sign of the delta and stamps the time |
| ControllerProps.WheelRule | src/Entity/PlayerLocalController.js:247-260 | within 100 ms of the last acted-on wheel event nothing changes; otherwise up selects next, down previous, zero neither, and the time is stamped |
| ControllerProps.WheelScenario | src/Entity/PlayerLocalController.js:250-259 | two scroll steps less than 100 ms apart select once, otherwise twice |
| LocalController.PlayerLocalController.PointerLockChange | src/Entity/PlayerLocalController.js:261-270 | a real change of the lock opens the pause page on an armed unlock, then arms it and records the lock |
| ControllerProps.PointerLockChangeRule | src/Entity/PlayerLocalController.js:261-270 | for every state and lock: no change of activity changes nothing; a change records the lock, arms the pause page, opens it exactly on an armed unlock and changes nothing else |
| ControllerProps.PauseOnNextUnlockOnly | src/Entity/PlayerLocalController.js:185-270 | the first unlock after taking the lock opens the pause page, but not after the inventory key |
| KeyEvents.Synthetic | src/Entity/PlayerLocalController.js:320-323 | a synthesized event carries its key and is no auto-repeat |
| KeyEvents.SyntheticLetter | src/Entity/PlayerLocalController.js:320-323 | a lower-case letter gets code "Key" plus the capital and the capital's character code |
| KeyEvents.SyntheticSpaceAndShift | src/Entity/PlayerLocalController.js:320-323 | Space gets code "Space" and key code 32, Shift gets "ShiftLeft" and 16 |
| KeyEvents.ToUpper | src/Entity/PlayerLocalController.js:321-322 | upper-casing keeps the length and upper-cases each character |
| LocalController.PlayerLocalController.DispatchKeyEvent | src/Entity/PlayerLocalController.js:320-329 | with a canvas bound, the synthesized event is handled by keydown or keyup and the bindings are kept |
| LocalController.PlayerLocalController.TouchStart | src/Entity/PlayerLocalController.js:281-294 | a new session starts and the long-press timeout is replaced |
| LocalController.PlayerLocalController.RestartTouchTimer | src/Entity/PlayerLocalController.js:286-287 | the old long-press timeout is cleared and a new one started |
| ControllerProps.TouchStartRule | src/Entity/PlayerLocalController.js:281-294 | the session is reset and one long-press timeout with a never-used handle is live; intents and intervals are unchanged |
| ControllerInvariant.TouchStartValid | src/Entity/PlayerLocalController.js:281-294 | touchstart keeps the invariant |
| LocalController.PlayerLocalController.FireLongPress | src/Entity/PlayerLocalController.js:287-293 | a live long-press timeout sets the destroying flag and presses button 0 when the touch travelled less than 10 px, and retires itself |
| Gestures.LongPressEvents | src/Entity/PlayerLocalController.js:288-291 | the long press synthesizes a primary press exactly when the travel is under 10 px |
| ControllerProps.LongPressRule | src/Entity/PlayerLocalController.js:287-293 | under 10 px the long press arms destroy with one tick; otherwise it only retires the timer; a dead timer does nothing |
| ControllerProps.DragNeverLongPresses | src/Entity/PlayerLocalController.js:287-316 | once a touch travelled 10 px it stays a drag and the long press never arms destroy or writes |
| ControllerInvariant.LongPressFireValid | src/Entity/PlayerLocalController.js:287-293 | the long press keeps the invariant |
| LocalController.PlayerLocalController.TouchMove | src/Entity/PlayerLocalController.js:308-319 | the first sample is only recorded; later ones add the step's length and synthesize a move of twice the horizontal step |
| ControllerProps.TouchMoveRule | src/Entity/PlayerLocalController.js:314-318 | the look moves as a mouse move of (2dx, dy) and the travel grows by the step's length |
| Gestures.TouchEndEvents | src/Entity/PlayerLocalController.js:298-304 | under 150 ms a secondary press and release; else a primary release exactly after a long press; else nothing |
| LocalController.PlayerLocalController.TouchEnd | src/Entity/PlayerLocalController.js:295-307 | the synthesized clicks, then the timeout is cleared and the last sample forgotten |
| LocalController.PlayerLocalController.TouchEndClicks | src/Entity/PlayerLocalController.js:298-304 | the clicks touchend synthesizes, delivered to the mouse handlers |
| ControllerProps.TapPlacesOnce | src/Entity/PlayerLocalController.js:298-301 | a tap places once with place added to the held intents and leaves place disarmed |
| ControllerProps.TouchEndRule | src/Entity/PlayerLocalController.js:302-306 | a long touch releases destroy after a long press and clicks nothing otherwise; only the last sample and the timeout are cleared |
| ControllerInvariant.TouchEndValid | src/Entity/PlayerLocalController.js:295-307 | touchend keeps the invariant |

## Left out

- DOM wiring is not modelled: adding and removing listeners, the `eventHandler`
  dispatch by event type, and building `MouseEvent` and `KeyboardEvent` objects.
  Synthesized events are direct calls of the handler.
- The page-manager listeners `pause=>play`, `play=>pause`, `closeInventory` and
  `showInventory` are left out because they only forward to the pointer-lock
  calls. So are `exitPointerLock` and the Pointer Lock API itself. The lock state
  arrives as a parameter of `PointerLockChange`.
- The constructor's inventory and hotbar population is left out. It consists of
  UI calls over the block list.
- Real timers and clocks are replaced: `setInterval` and `setTimeout` by handles
  from a counter, `new Date()` by an integer parameter in milliseconds.
- The sensitivity scaling (`mousemoveSensitivity * PI/180 / canvas.width`) is a
  configuration real per axis. Floating-point rounding is not modelled.
- MouseMove: `Math.PI / 2` is taken as the exact real 1.5707963267948966.
- TouchMove: the `Math.sqrt` step length is a parameter that the method requires
  to be the non-negative root of dx² + dy².
- The raycast, the eye position and the view direction are external collaborators
  (`rayTraceBlock`, `getEyePosition`, `getDirection`). The hit arrives as a
  parameter.
- DestroyOrPlaceBlock: takes the player's box already rounded outward.
  `GuardIsOverlap` relates it to the real box.
- The entity and the world are not separate objects. Their fields are part of the
  controller's state: yaw, pitch, fly, run, held item, and a map from cells to
  block names. `toFlyMode` and `toRunMode` are taken to set the flag they are
  given.
- KeyEvents.ToUpper: upper-cases ASCII letters only.
- KeyEvents.DefaultKeyCode: returns the first character's code point. JavaScript's
  `charCodeAt(0)` returns the first UTF-16 code unit, which for a character
  outside the Basic Multilingual Plane is a high surrogate. Strings here are
  sequences of code points, and no move-panel key lies outside that plane.
- Timer delays are left out: the 300 ms long press and the 300 ms repeat are
  not modelled as times. A firing is an explicit method call that has effect
  only while its handle is live.
- A JavaScript array aliases `keys["87"]` and `keys[87]`. The model keeps numeric
  and string slots apart. That matters only for digit keys, never for Space or W.
- setMoveBtns: rebinding the panel does not remove the old panel's listeners. The
  model keeps one binding flag.
- MoveButtonPress, MoveButtonUp: without a canvas `dispatchKeyEvent` throws on
  the missing document (line 325) before any handler runs. The model changes
  nothing in that case, and `DispatchKeyEvent` requires a bound canvas.
- TouchEnd: before any touch start the source throws on the missing start sample.
  The model changes nothing.
