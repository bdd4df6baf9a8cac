/**
 * The per-frame gesture dispatch of the main loop (main.py:170-301):
 * fist, then three-finger raise, then pinch / right click / scroll /
 * release, plus the hand-lost reset. `Transition` is the dispatch on a
 * snapshot of the whole session; `Session.Step` performs it on the three
 * objects in the source's order and is proved to agree with it.
 */
module Interaction {
  import opened Optional
  import opened Gestures
  import opened Keyboard
  import opened Controller

  /** The gesture label shown for the frame (`gesture_text`). */
  datatype GestureText =
    | NoGesture
    | FistPaused
    | ThreeFinger
    | KeyboardPress(key: string)
    | Dragging
    | PinchHold
    | RightClick
    | Scrolling
    | DragReleased
    | LeftClick
    | Pointing
    | NoHand

  /** The status line (`status_text`). */
  datatype StatusText = Ready | KeyboardOn | KeyboardOff | Typed(key: string)

  /** Everything the dispatch reads or writes. */
  datatype Snapshot = Snapshot(
    anchor: Option<real>,
    kb: KbState,
    ctrl: CtrlState,
    gestureText: GestureText,
    statusText: StatusText,
    lastPressedKey: string,
    lastPressedTime: real)

  function RealAbs(r: real): real
  {
    if r < 0.0 then -r else r
  }

  /** Whether the frame's scroll detector runs: no pinch and the keyboard hidden. */
  predicate ScrollEnabled(s: Snapshot, lm: Hand)
  {
    !ThumbIndexPinch(lm).pinching && !IndexMiddlePinch(lm).pinching && !s.kb.visible
  }

  /** The scroll answer and anchor of the frame; the anchor is cleared when the detector does not run. */
  function FrameScroll(s: Snapshot, lm: Hand): ScrollReading
  {
    if ScrollEnabled(s, lm) then ScrollStep(s.anchor, lm) else ScrollReading(false, 0.0, None)
  }

  /** Scroll decision, then hover (keyboard shown) or cursor move (hidden). */
  function Track(s: Snapshot, lm: Hand, frameW: int, frameH: int, now: real): Snapshot
    requires frameW > 0 && frameH > 0
  {
    var sc := FrameScroll(s, lm);
    var tip := IndexFingerTip(lm);
    var s1 := s.(anchor := sc.anchor);
    if !sc.scrolling && tip.Some? then
      if s1.kb.visible then s1.(kb := s1.kb.Hover(tip.value.x, tip.value.y, now))
      else s1.(ctrl := s1.ctrl.MoveCursor(tip.value.x, tip.value.y, frameW, frameH))
    else s1
  }

  /** The key a thumb-index pinch would type this frame, read after the hover. */
  function PressTarget(s: Snapshot, now: real): Option<string>
  {
    if s.kb.visible then s.kb.PressCandidate(now) else None
  }

  /** Thumb-index pinch: type the candidate key, or run the click/drag timer. */
  function PinchAction(s: Snapshot, lm: Hand, frameW: int, frameH: int, now: real): Snapshot
    requires frameW > 0 && frameH > 0
  {
    var key := PressTarget(s, now);
    if s.kb.visible && Truthy(key) then
      var pressed := s.ctrl.PressKey(key.value, now);
      var s1 := s.(gestureText := KeyboardPress(key.value), ctrl := pressed.0);
      if pressed.1 then s1.(statusText := Typed(key.value), lastPressedKey := key.value, lastPressedTime := now)
      else s1
    else
      var c := if s.ctrl.pinchStart == 0.0 then s.ctrl.(pinchStart := now) else s.ctrl;
      if now - c.pinchStart > DRAG_HOLD_THRESHOLD then
        var tip := IndexFingerTip(lm);
        var c1 := c.StartDrag();
        var c2 := if tip.Some? then c1.MoveCursor(tip.value.x, tip.value.y, frameW, frameH) else c1;
        s.(gestureText := Dragging, ctrl := c2)
      else s.(gestureText := PinchHold, ctrl := c)
  }

  /** No pinch and no scroll: end a drag, or click a short pinch; then reset the pinch timer. */
  function Release(s: Snapshot, now: real): Snapshot
  {
    if s.ctrl.dragging then s.(gestureText := DragReleased, ctrl := s.ctrl.StopDrag().(pinchStart := 0.0))
    else if s.ctrl.pinchStart > 0.0 then s.(gestureText := LeftClick, ctrl := s.ctrl.LeftClick(now).0.(pinchStart := 0.0))
    else s.(gestureText := Pointing, ctrl := s.ctrl.(pinchStart := 0.0))
  }

  /** A hand that is neither a fist nor a three-finger raise. */
  function Pointer(s: Snapshot, lm: Hand, frameW: int, frameH: int, now: real): Snapshot
    requires frameW > 0 && frameH > 0
  {
    var s0 := s.(ctrl := s.ctrl.(paused := false));
    var sc := FrameScroll(s0, lm);
    var s1 := Track(s0, lm, frameW, frameH, now);
    if ThumbIndexPinch(lm).pinching then PinchAction(s1, lm, frameW, frameH, now)
    else if IndexMiddlePinch(lm).pinching && !s1.kb.visible then
      s1.(gestureText := RightClick, ctrl := s1.ctrl.RightClick(now).0.(pinchStart := 0.0))
    else if sc.scrolling then
      s1.(gestureText := Scrolling,
          ctrl := if RealAbs(sc.delta) > 2.0 then s1.ctrl.Scroll(sc.delta, now) else s1.ctrl)
    else Release(s1, now)
  }

  /** One frame of the dispatch. */
  function Transition(s: Snapshot, lm: Hand, frameW: int, frameH: int, now: real): Snapshot
    requires frameW > 0 && frameH > 0
  {
    if |lm| > 0 then
      if DetectClosedFist(lm) then
        s.(gestureText := FistPaused, ctrl := s.ctrl.(paused := true).StopDrag())
      else if DetectThreeFingerRaise(lm) then
        var gate := s.ctrl.(paused := false).CanToggle(now);
        if gate.1 then
          var kb := s.kb.Toggle();
          s.(gestureText := ThreeFinger, ctrl := gate.0, kb := kb,
             statusText := if kb.visible then KeyboardOn else KeyboardOff)
        else s.(gestureText := ThreeFinger, ctrl := gate.0)
      else Pointer(s, lm, frameW, frameH, now)
    else
      s.(gestureText := NoHand, ctrl := s.ctrl.StopDrag().(pinchStart := 0.0), anchor := None)
  }

  /** The three objects of the main loop and its display locals. */
  class Session {
    const gesture: GestureEngine
    const keyboard: VirtualKeyboard
    const controller: MouseKeyboardController
    var gestureText: GestureText
    var statusText: StatusText
    var lastPressedKey: string
    var lastPressedTime: real

    function Model(): Snapshot
      reads this, gesture, keyboard, controller
    {
      Snapshot(gesture.prevScrollY, keyboard.Model(), controller.Model(),
        gestureText, statusText, lastPressedKey, lastPressedTime)
    }

    /** Start-up: smoothing 0.3, click cooldown 0.4, layout for the camera frame. */
    constructor (screenW: int, screenH: int, frameW: int, frameH: int)
      ensures fresh(gesture) && fresh(keyboard) && fresh(controller)
      ensures Model() == Snapshot(None, KbState(false, None, None, 0.0, Layout(frameW, frameH)),
        CtrlState(screenW, screenH, 0.3, 0.4, screenW as real / 2.0, screenH as real / 2.0,
          0.0, 0.0, 0.0, 0.0, 0.0, false, 0.0, false, []),
        NoGesture, Ready, "", 0.0)
    {
      gesture := new GestureEngine();
      controller := new MouseKeyboardController(screenW, screenH, 0.3, 0.4);
      var kb := new VirtualKeyboard();
      kb.ComputeLayout(frameW, frameH);
      keyboard := kb;
      gestureText, statusText := NoGesture, Ready;
      lastPressedKey, lastPressedTime := "", 0.0;
    }

    method Step(lm: Hand, frameW: int, frameH: int, now: real)
      requires frameW > 0 && frameH > 0
      modifies this, gesture, keyboard, controller
      ensures Model() == Transition(old(Model()), lm, frameW, frameH, now)
    {
      if |lm| > 0 {
        if DetectClosedFist(lm) {
          gestureText := FistPaused;
          controller.paused := true;
          controller.StopDrag();
        } else if DetectThreeFingerRaise(lm) {
          gestureText := ThreeFinger;
          controller.paused := false;
          var ok := controller.CanToggle(now);
          if ok {
            keyboard.Toggle();
            statusText := if keyboard.visible then KeyboardOn else KeyboardOff;
          }
        } else {
          PointerStep(lm, frameW, frameH, now);
        }
      } else {
        gestureText := NoHand;
        controller.StopDrag();
        controller.pinchStartTime := 0.0;
        gesture.prevScrollY := None;
      }
    }

    /** The `else` branch of the dispatch (main.py:193-292). */
    method PointerStep(lm: Hand, frameW: int, frameH: int, now: real)
      requires frameW > 0 && frameH > 0
      modifies this, gesture, keyboard, controller
      ensures Model() == Pointer(old(Model()), lm, frameW, frameH, now)
    {
      controller.paused := false;
      var thumbIndex := ThumbIndexPinch(lm);
      var indexMiddle := IndexMiddlePinch(lm);
      var isScrolling, scrollDelta := TrackStep(lm, frameW, frameH, now);
      if thumbIndex.pinching {
        PinchStep(lm, frameW, frameH, now);
      } else if indexMiddle.pinching && !keyboard.visible {
        gestureText := RightClick;
        var clicked := controller.RightClick(now);
        controller.pinchStartTime := 0.0;
      } else if isScrolling {
        gestureText := Scrolling;
        if RealAbs(scrollDelta) > 2.0 {
          controller.Scroll(scrollDelta, now);
        }
      } else {
        ReleaseStep(now);
      }
    }

    /** Scroll detection (or anchor reset), then hover or cursor move (main.py:195-221). */
    method TrackStep(lm: Hand, frameW: int, frameH: int, now: real) returns (isScrolling: bool, scrollDelta: real)
      requires frameW > 0 && frameH > 0
      modifies this, gesture, keyboard, controller
      ensures Model() == Track(old(Model()), lm, frameW, frameH, now)
      ensures isScrolling == FrameScroll(old(Model()), lm).scrolling
      ensures scrollDelta == FrameScroll(old(Model()), lm).delta
    {
      var indexTip := IndexFingerTip(lm);
      var thumbIndex := ThumbIndexPinch(lm);
      var indexMiddle := IndexMiddlePinch(lm);
      if !thumbIndex.pinching && !indexMiddle.pinching && !keyboard.visible {
        isScrolling, scrollDelta := gesture.DetectScroll(lm);
      } else {
        isScrolling, scrollDelta := false, 0.0;
        gesture.prevScrollY := None;
      }
      if !isScrolling && indexTip.Some? {
        if keyboard.visible {
          var hovered := keyboard.GetHoveredKey(indexTip.value.x, indexTip.value.y, now);
        } else {
          controller.MoveCursor(indexTip.value.x, indexTip.value.y, frameW, frameH);
        }
      }
    }

    /** Thumb-index pinch: key press, or the click/drag timer (main.py:226-258). */
    method PinchStep(lm: Hand, frameW: int, frameH: int, now: real)
      requires frameW > 0 && frameH > 0
      modifies this, controller
      ensures Model() == PinchAction(old(Model()), lm, frameW, frameH, now)
    {
      var indexTip := IndexFingerTip(lm);
      var pressKey := if keyboard.visible then keyboard.Model().PressCandidate(now) else None;
      if keyboard.visible && Truthy(pressKey) {
        gestureText := KeyboardPress(pressKey.value);
        var typed := controller.PressKey(pressKey.value, now);
        if typed {
          statusText := Typed(pressKey.value);
          lastPressedKey := pressKey.value;
          lastPressedTime := now;
        }
      } else {
        if controller.pinchStartTime == 0.0 {
          controller.pinchStartTime := now;
        }
        var hold := now - controller.pinchStartTime;
        if hold > DRAG_HOLD_THRESHOLD {
          gestureText := Dragging;
          controller.StartDrag();
          if indexTip.Some? {
            controller.MoveCursor(indexTip.value.x, indexTip.value.y, frameW, frameH);
          }
        } else {
          gestureText := PinchHold;
        }
      }
    }

    /** No pinch, no scroll: release handling and pinch-timer reset (main.py:279-292). */
    method ReleaseStep(now: real)
      modifies this, controller
      ensures Model() == Release(old(Model()), now)
    {
      if controller.isDragging {
        controller.StopDrag();
        gestureText := DragReleased;
      } else if controller.pinchStartTime > 0.0 {
        var clicked := controller.LeftClick(now);
        gestureText := LeftClick;
      } else {
        gestureText := Pointing;
      }
      controller.pinchStartTime := 0.0;
    }
  }
}
