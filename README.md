# AirPointer gesture core, modelled in Dafny

AirPointer turns a webcam image of one hand into mouse and keyboard input.
A hand tracker, which is not modelled here, yields 21 landmarks `(id, x, y)` in
camera pixels for each frame. This project models the layers above the tracker:

- **`Gestures`** (`gestures.dfy`) holds the stateless detectors. They cover
  finger extension, the thumb-index and index-middle pinches, the closed
  fist, the three-finger raise, the two-finger scroll pose and the index
  tip. They are pure functions on a `Hand`. The scroll detector's
  remembered height is the one piece of state. It lives in the
  `GestureEngine` class, and `ScrollStep` specifies it.
- **`Keyboard`** (`keyboard.dfy`) is the on-screen keyboard. It covers
  the 28-key layout computed for a frame size, visibility toggling, the
  hover hit test, and the press candidate with its 0.35 s grace period.
  The `VirtualKeyboard` class keeps the source's fields. Its methods are
  proved against the value type `KbState`.
- **`Controller`** (`controller.dfy`) is the OS-facing controller. It
  covers the active-zone coordinate map, exponential smoothing, cursor
  move, left and right click, drag, scroll, key press and the toggle
  gate. Each of the five timed actions (left click, right click, scroll,
  key press, toggle) has its own cooldown; cursor move and drag have
  none. The `MouseKeyboardController`
  class keeps the source's fields. Its methods are proved against
  `CtrlState`.
  The OS calls are appended to an `events` log, in order. The current
  time is an explicit `now` parameter.
- **`Interaction`** (`interaction.dfy`) is the per-frame dispatch of the
  main loop. It runs the priority cascade fist → three-finger raise →
  pointer: pinch click/drag/key press, right click, scroll, release and
  pointing. The branch for no hand is included. `Transition` is its pure
  specification. `Session.Step` is the imperative step over the three
  objects, proved equal to `Transition`.
- **`InteractionLemmas`** (`interaction_lemmas.dfy`) states what a frame
  and short frame sequences do. It covers pausing, toggling, the pinch
  timer, the strict 0.3 s drag boundary and the double cursor move while
  dragging. It also shows at most one left click per frame and per
  release, and exactly one click attempt for a tap held over any number
  of frames under 0.3 s; that attempt fires iff the click cooldown has
  passed (`RunFrames` replays the main loop over a run). It also shows when
  scrolling is suppressed.
- **`RealArith`** (`arith.dfy`) and **`Optional`** (`optional.dfy`) are
  small shared helpers. `Truthy` models Python truthiness of an optional
  string.

Design choices:

- **No square roots.** Distances are compared by their squares
  (`sq < 40*40`). Lemmas show this agrees with the source's `sqrt(...) < 40`
  for the real square root.
- **Integer arithmetic.** Python's `//` by 2 on a positive divisor is
  Dafny's `/`. `int()` truncation toward zero is `Trunc`.
- **Floats.** Floating point is modelled by exact reals.

## Model

| member | source | states |
|---|---|---|
| Gestures.SqDistance | gesture_engine.py:47-53 | the squared distance depends only on x and y, is never negative, and is zero exactly when the two points coincide |
| Gestures.ExtendedFingers | gesture_engine.py:77-92 | always exactly five flags, in the order thumb, index, middle, ring, pinky |
| Gestures.IsFingerExtended | gesture_engine.py:56-64 | true iff the tip lies strictly above its PIP joint (smaller y); `FingerExtensionRule` ties it to each finger |
| Gestures.IsThumbExtended | gesture_engine.py:66-75 | true iff the tip is farther from the MCP joint horizontally than the IP joint; `ThumbExtensionRule` restates it on squares |
| Gestures.ThumbIndexPinch | gesture_engine.py:98-121 | `(False, 0)` for an incomplete hand, else whether tips 4 and 8 are closer than 40 together with their squared distance; `ThumbIndexPinchIffCloser` ties it to the Euclidean distance |
| Gestures.IndexMiddlePinch | gesture_engine.py:123-143 | `(False, 0)` for an incomplete hand or unless index and middle are extended, else whether tips 8 and 12 are closer than 40; `IndexMiddlePinchRule` states it |
| Gestures.DetectClosedFist | gesture_engine.py:145-154 | true iff the hand is complete and no finger is extended (`FistIsAllCurled`) |
| Gestures.DetectThreeFingerRaise | gesture_engine.py:156-169 | true iff the hand is complete and exactly index, middle and ring are extended (`ThreeFingerPattern`) |
| Gestures.ScrollStep | gesture_engine.py:171-206 | the answer and next anchor of one scroll call: `(False, 0)` and no anchor off the pose, `(True, 0)` on the first pose frame, else the height change; `ScrollFirstFrame`, `ScrollLaterFrame` and `ScrollRunTelescopes` state it |
| Gestures.IndexFingerTip | gesture_engine.py:212-219 | a tip is returned iff the hand has at least 21 landmarks, and it is landmark 8 |
| Gestures.GestureEngine.constructor | gesture_engine.py:39-41 | the engine starts with no scroll anchor |
| Gestures.GestureEngine.DetectScroll | gesture_engine.py:171-206 | the returned (is_scrolling, delta) and the new anchor are those of `ScrollStep` on the old anchor |
| Gestures.IncompleteHandDefaults | gesture_engine.py:77-219 | with fewer than 21 landmarks the finger flags are all false, no pose or pinch is detected, the pinch readings are `(False, 0)`, the scroll answer is `(False, 0)` with the anchor cleared, and there is no tip |
| Gestures.FingerExtensionRule | gesture_engine.py:56-64 | index, middle, ring and pinky are extended iff tip 4k+4 is strictly above PIP 4k+2 (smaller y) |
| Gestures.ThumbExtensionRule | gesture_engine.py:66-75 | the thumb is extended iff `abs(x4 - x2) > abs(x3 - x2)`, stated on squares; y plays no part |
| Gestures.ThumbIndexPinchIffCloser | gesture_engine.py:98-121 | on a complete hand, thumb-index pinching holds iff the Euclidean distance of landmarks 4 and 8 is strictly below 40; no finger needs to be extended |
| Gestures.PinchThresholdIsStrict | gesture_engine.py:121 | tips exactly 40 pixels apart do not pinch |
| Gestures.IndexMiddlePinchRule | gesture_engine.py:123-143 | unless index and middle are both extended the reading is `(False, 0)`; otherwise the pinch holds iff tips 8 and 12 are closer than 40 |
| Gestures.IdsAreIgnored | gesture_engine.py:48-53 | hands that agree on every x and y get the same answer from every detector, whatever their ids |
| Gestures.FistIsAllCurled | gesture_engine.py:145-154 | the fist holds iff the hand is complete and no finger is extended |
| Gestures.ThreeFingerPattern | gesture_engine.py:156-169 | the raise holds iff the hand is complete and the flags are exactly [F, T, T, T, F] |
| Gestures.PosesAreExclusive | gesture_engine.py:145-190 | no hand is both a fist and a three-finger raise, a fist and a scroll pose, or a raise and a scroll pose |
| Gestures.ScrollFirstFrame | gesture_engine.py:192-202 | on the first two-finger frame the answer is (True, 0) and the anchor becomes the average y of tips 8 and 12 |
| Gestures.ScrollLaterFrame | gesture_engine.py:204-206 | on later two-finger frames the delta is the new average minus the anchor, and the anchor moves to the new average |
| Gestures.ScrollResumesAtZero | gesture_engine.py:185-202 | a frame that breaks the pose answers (False, 0) and clears the anchor, so the next scroll frame reports delta 0 |
| Gestures.ScrollDeltasFromAnchor | gesture_engine.py:204-206 | from an anchor a, the deltas of a run of scroll frames sum to the last frame's average minus a |
| Gestures.ScrollRunTelescopes | gesture_engine.py:171-206 | over a run of scroll frames, the reported deltas sum to the last average height minus the first |
| Keyboard.KeyRectAt | virtual_keyboard.py:86-113 | the rectangle of key c of row r: the row's y band, the centred row start plus 55 per column, width 50 (70 for BKSP), or the 550-wide space bar; `LayoutRowGeometry`, `LayoutWidths` and `LayoutCentred` state it |
| Keyboard.KbState.Toggle | virtual_keyboard.py:119-124 | visibility flipped, hovered key and candidate cleared, candidate time and rectangles kept (`ToggleTwice`) |
| Keyboard.KbState.Hover | virtual_keyboard.py:130-160 | the keyboard after one hover call; `HiddenHoverIsInert` and `VisibleHover` state it |
| Keyboard.KbState.PressCandidate | virtual_keyboard.py:162-179 | the hovered key, else the cached candidate while younger than 0.35 s, else none; `PressCandidateRule` and `GraceWindow` state it |
| Keyboard.Layout | virtual_keyboard.py:75-113 | the layout is 28 rectangles |
| Keyboard.FirstHitIndex | virtual_keyboard.py:152-160 | the index is of a rectangle that contains the point (inclusive bounds), and no earlier rectangle does; otherwise it is past the end and no rectangle does |
| Keyboard.VirtualKeyboard.constructor | virtual_keyboard.py:36-69 | the keyboard starts hidden, with no hovered key, no candidate, candidate time 0 and no rectangles |
| Keyboard.VirtualKeyboard.ComputeLayout | virtual_keyboard.py:75-113 | after the nested row/key loop the rectangles are `Layout(frame_w, frame_h)` and every other field is unchanged |
| Keyboard.VirtualKeyboard.Toggle | virtual_keyboard.py:119-124 | visibility flips and the hovered key and candidate are cleared |
| Keyboard.VirtualKeyboard.GetHoveredKey | virtual_keyboard.py:130-160 | the loop returns the label of the first containing key (None when hidden or on no key) and leaves the state `KbState.Hover` gives |
| Keyboard.LayoutAt | virtual_keyboard.py:92-113 | layout index i holds the rectangle of its row and column, in row order |
| Keyboard.LayoutLabels | virtual_keyboard.py:38-43 | the labels are Q..P, A..L, Z..M, BKSP, SPACE, in that order |
| Keyboard.LayoutRowGeometry | virtual_keyboard.py:86-94 | every key of row r spans y from `frame_h - 245 + 55r` to 50 pixels below that |
| Keyboard.LayoutWidths | virtual_keyboard.py:96-113 | keys are 50 wide, BKSP 70 and SPACE 550; neighbours in a row start 55 pixels apart |
| Keyboard.LayoutCentred | virtual_keyboard.py:96-108 | the space bar and the first two rows (Q..P and A..L) sit centred, with left and right gaps that differ by at most one pixel; the third row's right gap is 19 or 20 pixels smaller than its left gap, so it sits 10 pixels right of centre |
| Keyboard.BackspaceIsLast | virtual_keyboard.py:38-43 | BKSP occurs only as the last key of the third row |
| Keyboard.KeysDisjoint | virtual_keyboard.py:92-113 | any two distinct keys' rectangles are disjoint |
| Keyboard.LayoutDisjoint | virtual_keyboard.py:75-113 | any two rectangles of the layout are disjoint |
| Keyboard.HoverFindsContainingKey | virtual_keyboard.py:152-158 | on the layout, a point inside key k is reported as key k, because no other key can contain it |
| Keyboard.HiddenHoverIsInert | virtual_keyboard.py:147-148 | a hidden keyboard answers None and changes nothing |
| Keyboard.VisibleHover | virtual_keyboard.py:150-160 | a shown keyboard resets the hovered key; on a hit it sets hovered and candidate to the first containing key and the candidate time to now; on a miss the candidate and its time stay |
| Keyboard.PressCandidateRule | virtual_keyboard.py:162-179 | the candidate is the hovered key if any; else the cached candidate iff it is strictly younger than 0.35 s; else none |
| Keyboard.GraceWindow | virtual_keyboard.py:172-177 | after a hovered key and a frame off every key, a pinch 0.30 s later still types that key and none 0.40 s later |
| Keyboard.ToggleTwice | virtual_keyboard.py:119-124 | toggling flips visibility and clears hovered and candidate; toggling twice restores visibility |
| Controller.MapAxis | mouse_keyboard_controller.py:111-123 | one axis of the map: clamp to the active zone, then scale linearly onto [0, screen]; `MapAxisBounds` and `MapEdgesAndCentre` state it |
| Controller.MapCoordinates | mouse_keyboard_controller.py:94-125 | the pair of mapped axes; `MapInScreen` states that it lands on the screen |
| Controller.Ema | mouse_keyboard_controller.py:140-141 | one exponential-moving-average step from prev towards target; `EmaBetween` bounds it |
| Controller.ScrollAmount | mouse_keyboard_controller.py:222 | `int(-delta / 5)`; `ScrollAmountZero` states its sign and when it is zero |
| Controller.KeyName | mouse_keyboard_controller.py:241-246 | the OS key name of a keyboard key; `KeyNames` states it for SPACE, BKSP and every letter |
| Controller.CtrlState.MoveCursor | mouse_keyboard_controller.py:153-169 | the state after a cursor move; `PausedMoveIsInert` and `MoveUpdatesSmoothing` state it |
| Controller.CtrlState.LeftClick | mouse_keyboard_controller.py:175-182 | the state after a left click and whether it fired; `LeftClickCooldown` states it |
| Controller.CtrlState.RightClick | mouse_keyboard_controller.py:184-191 | the state after a right click and whether it fired; `RightClickCooldown` states it |
| Controller.CtrlState.StartDrag | mouse_keyboard_controller.py:197-201 | the state after start_drag; `DragIsIdempotent` states it |
| Controller.CtrlState.StopDrag | mouse_keyboard_controller.py:203-207 | the state after stop_drag; `DragIsIdempotent` states it |
| Controller.CtrlState.Scroll | mouse_keyboard_controller.py:213-225 | the state after a scroll call; `ScrollRule` states it |
| Controller.CtrlState.PressKey | mouse_keyboard_controller.py:231-251 | the state after a key press and whether it fired; `PressKeyCooldown` states it |
| Controller.CtrlState.CanToggle | mouse_keyboard_controller.py:257-263 | the state after the toggle gate and whether it opened; `ToggleCooldown` states it |
| Controller.Trunc | mouse_keyboard_controller.py:147 | the result is the integer part, truncated toward zero for both signs |
| Controller.Lower | mouse_keyboard_controller.py:246 | lower-casing keeps the length |
| Controller.MouseKeyboardController.constructor | mouse_keyboard_controller.py:48-88 | the cursor starts at the screen centre, every timer at 0, not dragging, not paused, and the log is empty |
| Controller.MouseKeyboardController.SmoothPosition | mouse_keyboard_controller.py:131-147 | the stored position becomes the EMA of the old position and the target, and the truncated new position is returned |
| Controller.MouseKeyboardController.MoveCursor | mouse_keyboard_controller.py:153-169 | paused: nothing changes; otherwise map, smooth and log one `Moved` event |
| Controller.MouseKeyboardController.LeftClick | mouse_keyboard_controller.py:175-182 | the state and the fired flag are those of `CtrlState.LeftClick` |
| Controller.MouseKeyboardController.RightClick | mouse_keyboard_controller.py:184-191 | the state and the fired flag are those of `CtrlState.RightClick` |
| Controller.MouseKeyboardController.StartDrag | mouse_keyboard_controller.py:197-201 | the new state is that of `CtrlState.StartDrag` |
| Controller.MouseKeyboardController.StopDrag | mouse_keyboard_controller.py:203-207 | the new state is that of `CtrlState.StopDrag` |
| Controller.MouseKeyboardController.Scroll | mouse_keyboard_controller.py:213-225 | the new state is that of `CtrlState.Scroll` |
| Controller.MouseKeyboardController.PressKey | mouse_keyboard_controller.py:231-251 | the state and the fired flag are those of `CtrlState.PressKey` |
| Controller.MouseKeyboardController.CanToggle | mouse_keyboard_controller.py:257-263 | the state and the answer are those of `CtrlState.CanToggle` |
| Controller.ClipBounds | mouse_keyboard_controller.py:118-119 | a clipped value lies within the bounds |
| Controller.MapAxisBounds | mouse_keyboard_controller.py:94-125 | each mapped coordinate lies in [0, screen extent] |
| Controller.MapInScreen | mouse_keyboard_controller.py:94-125 | every finger position maps onto the screen |
| Controller.MapEdgesAndCentre | mouse_keyboard_controller.py:112-123 | at or beyond the low edge of the active zone the map gives 0; at or beyond the high edge, the full extent; the frame centre maps to the screen centre |
| Controller.EmaBetween | mouse_keyboard_controller.py:131-141 | for alpha in [0, 1] the smoothed value lies between the old value and the target; alpha 1 jumps and alpha 0 stays |
| Controller.PausedMoveIsInert | mouse_keyboard_controller.py:160-161 | a paused controller changes nothing on a move |
| Controller.MoveUpdatesSmoothing | mouse_keyboard_controller.py:153-169 | an unpaused move sets the position to the EMA of the mapped target, logs one `Moved` with the truncated position, and changes nothing else |
| Controller.LeftClickCooldown | mouse_keyboard_controller.py:175-182 | the click fires iff strictly more than the cooldown has passed; it then logs one click and restarts only its timer; otherwise nothing changes; at exactly the cooldown it does not fire |
| Controller.RightClickCooldown | mouse_keyboard_controller.py:184-191 | the right click fires on the same rule as the left click, with its own timer |
| Controller.PressKeyCooldown | mouse_keyboard_controller.py:231-251 | the press fires iff more than 0.5 s has passed on the key timer; it then logs the OS key name and restarts the key timer; otherwise nothing changes |
| Controller.KeyNames | mouse_keyboard_controller.py:241-246 | SPACE is sent as "space" and BKSP as "backspace"; each letter key is sent lower-cased |
| Controller.ToggleCooldown | mouse_keyboard_controller.py:257-263 | the gate opens iff more than 0.8 s has passed, and only then records the time |
| Controller.TimersAreIndependent | mouse_keyboard_controller.py:70-78 | each timed action changes no timer but its own |
| Controller.DragIsIdempotent | mouse_keyboard_controller.py:197-207 | start and stop are idempotent; one MouseDown is logged only on a false-to-true change and one MouseUp only on true-to-false |
| Controller.ScrollAmountZero | mouse_keyboard_controller.py:222-224 | `int(-delta / 5)` is zero exactly when -5 < delta < 5, negative for delta >= 5 and positive for delta <= -5 |
| Controller.ScrollRule | mouse_keyboard_controller.py:213-225 | after more than 0.05 s a scroll logs its clicks when they are nonzero, and restarts its timer even for zero; sooner, nothing changes |
| Interaction.Track | main.py:195-221 | the anchor the frame's scroll detector leaves (cleared when it does not run), then a hover or a cursor move unless scrolling; `TrackEffects` states what it leaves alone |
| Interaction.PinchAction | main.py:226-258 | a key press of the candidate when the keyboard shows one, else the pinch timer with drag start and second move; `KeyboardPressFrame`, `PinchHoldFrame` and `DragMovesTwice` state it |
| Interaction.Release | main.py:279-292 | stop a drag, or click when the timer runs, else point; then the timer is 0; `ReleaseFrame` states it |
| Interaction.Pointer | main.py:193-292 | pause cleared, then Track, then the pinch, right-click, scroll or release branch in the source's priority order |
| Interaction.Transition | main.py:170-301 | one frame: fist, three-finger raise, the pointer cascade, or the no-hand reset; the `InteractionLemmas` rows state its properties |
| Interaction.Session.constructor | main.py:119-133 | the session starts with smoothing 0.3, cooldown 0.4, the layout computed for the frame, text "None"/"Ready", and an empty log |
| Interaction.Session.Step | main.py:170-301 | one frame changes the gesture engine, the keyboard, the controller and the display locals exactly as `Transition` says |
| Interaction.Session.PointerStep | main.py:193-292 | the pointer branch changes the state as `Pointer` says |
| Interaction.Session.TrackStep | main.py:195-221 | it returns this frame's scroll answer, or False when scrolling is disabled, and moves the cursor or hovers as `Track` says |
| Interaction.Session.PinchStep | main.py:226-258 | the thumb-index pinch either presses a key or runs the click/drag timer, as `PinchAction` says |
| Interaction.Session.ReleaseStep | main.py:279-292 | the release branch changes the state as `Release` says |
| InteractionLemmas.FistFrame | main.py:174-180 | a fist pauses and ends a drag with one MouseUp; keyboard, anchor and pinch timer are unchanged |
| InteractionLemmas.ThreeFingerFrame | main.py:182-191 | a three-finger raise unpauses; it toggles the keyboard iff more than 0.8 s has passed since the last toggle; drag, pinch timer, anchor and log are unchanged |
| InteractionLemmas.HandLost | main.py:294-301 | with no hand, a drag ends with one MouseUp, the pinch timer and the scroll anchor are reset, and the pause flag is kept |
| InteractionLemmas.LogOnlyGrows | main.py:170-301 | a frame only appends to the event log, and it never changes the screen size, smoothing, cooldown or the keyboard's rectangles, so the layout lemmas hold for every frame of a session |
| InteractionLemmas.ScrollSuppressed | main.py:203-210 | while a pinch is detected or the keyboard is shown, the anchor is cleared and no scroll is issued |
| InteractionLemmas.KeyboardPressFrame | main.py:226-238 | a pinch over a candidate key presses it, subject to the key cooldown; the pinch timer and the drag are untouched |
| InteractionLemmas.PinchHoldFrame | main.py:239-258 | any other pinch starts the timer on its first frame; a drag begins only when the hold is strictly more than 0.3 s; the frame issues no click, right click, scroll or key press |
| InteractionLemmas.DragMovesTwice | main.py:213-255 | while dragging with the keyboard hidden the frame logs two cursor moves, with a MouseDown between them on the frame the drag starts |
| InteractionLemmas.ReleaseFrame | main.py:279-292 | releasing a drag logs one MouseUp and no click; otherwise a running timer gives exactly one click attempt; then the timer is reset |
| InteractionLemmas.AtMostOneClickPerRelease | main.py:279-292 | of two release frames in a row, the second attempts no click |
| InteractionLemmas.TapClicksOnce | main.py:239-292 | a one-frame pinch with the keyboard hidden, then a release, makes exactly one click attempt and no drag |
| InteractionLemmas.ShortPinchFrame | main.py:239-258 | a pinch frame with the keyboard hidden and a hold of at most 0.3 s starts or keeps the timer, begins no drag and logs no click or MouseDown |
| InteractionLemmas.PinchHeldStep | main.py:239-258 | one more pinch frame within 0.3 s of the pinch start keeps the timer, the keyboard, the last click and the click and MouseDown counts |
| InteractionLemmas.ShortPinchRunHolds | main.py:239-258 | through any number of pinch frames within 0.3 s of the first, the timer holds the first frame's time and no drag, click or MouseDown happens |
| InteractionLemmas.TapRunClicksOnce | main.py:239-292 | a pinch held over several frames for at most 0.3 s with the keyboard hidden, then a release, makes exactly one click attempt (it fires iff the click cooldown has passed) and no drag |
| InteractionLemmas.PartialHandReleases | main.py:170-292 | a frame of 1 to 20 landmarks is not the no-hand branch: it clears the pause, reaches the release branch and, with a running pinch timer, attempts a left click |
| InteractionLemmas.FistKeepsPinchTimer | main.py:174-180 | a fist does not reset the pinch timer, so a pinch interrupted by a fist and then released still attempts a click |
| InteractionLemmas.IndexMiddleFrame | main.py:263-266 | with the keyboard hidden, an index-middle pinch right-clicks (subject to its cooldown) and resets the pinch timer; with it shown, the frame falls through to release |
| InteractionLemmas.ScrollFrame | main.py:271-274 | a scroll frame calls scroll only when the delta exceeds 2 in magnitude, moves the anchor, and leaves the pinch timer and drag alone |
| InteractionLemmas.AtMostOneClickPerFrame | main.py:170-301 | no frame logs more than one left click |

## Left out

- The hand tracker (`hand_tracker.py`), camera capture, window creation, every drawing routine (`VirtualKeyboard.draw` and the overlays of main.py), the FPS counter and `print_gesture_summary` are not modelled. They are I/O and rendering.
- OS input calls (`pyautogui.moveTo`, `click`, `rightClick`, `mouseDown`, `mouseUp`, `scroll`, `press`) are modelled as entries in an event log. `pyautogui.size()` becomes a constructor parameter.
- `time.time()` becomes a `now` parameter, and every clock read within one frame gets the same `now`. This covers the hover stamp and the press-candidate age (virtual_keyboard.py:157 and 175), `press_key` and `last_pressed_time` (mouse_keyboard_controller.py:239 and main.py:238), and the pinch start and the hold (main.py:243 and 245). So on a pinch's first frame the hold is exactly 0, and a key hovered on that frame has candidate age exactly 0, where the source reads a few microseconds more. Successive `now` values need not increase: the model does not assume a monotone clock.
- The debug `print` of a key press (mouse_keyboard_controller.py:249) is left out.
- Landmark coordinates are integers and all other quantities are exact reals, so floating-point rounding is not modelled.
- Gestures.ThumbIndexPinch and Gestures.IndexMiddlePinch report the squared distance, not its square root. The source reports the float distance, but only for display.
- Controller.MapAxis requires a positive frame size and a margin below 0.5. NumPy's `interp` over an empty or reversed active zone is not modelled.
- Controller.Lower maps only ASCII A-Z. Python's `str.lower` also folds other letters, but the layout holds only ASCII labels.
- Interaction.Session.Step calls four helper methods instead of one inline body; the order of field updates is the same.
- Keyboard.LayoutCentred: states centring for the first two rows and the space bar only. The source's third row is centred on its width without BKSP's extra 20 pixels, so it sits 10 pixels right of centre; the model keeps this, and the lemma proves the offset.
- A frame with 1 to 20 landmarks passes main.py:170 `if landmarks:` and is not treated as no hand. No detector fires, the pause flag is cleared, and the release branch runs, so a running pinch timer gives a left click attempt and a drag ends through release. The model keeps this (`PartialHandReleases`).
