/**
 * Properties of the per-frame dispatch (main.py:170-301), stated on
 * `Interaction.Transition` and, through `Session.Step`'s postcondition,
 * true of the imperative step as well.
 */
module InteractionLemmas {
  import opened Optional
  import opened Gestures
  import opened Keyboard
  import opened Controller
  import opened Interaction

  /** The keyboard after this frame's hover, when the fingertip is known. */
  function Hovered(kb: KbState, lm: Hand, now: real): KbState
  {
    var tip := IndexFingerTip(lm);
    if tip.Some? then kb.Hover(tip.value.x, tip.value.y, now) else kb
  }

  /** A hand that reaches the pinch / right-click / scroll / release cascade. */
  predicate Cascade(lm: Hand)
  {
    |lm| > 0 && !DetectClosedFist(lm) && !DetectThreeFingerRaise(lm)
  }

  /** A thumb-index pinch that types a key instead of clicking. */
  predicate TypesKey(s: Snapshot, lm: Hand, now: real)
  {
    s.kb.visible && Truthy(Hovered(s.kb, lm, now).PressCandidate(now))
  }

  /** A frame that reaches the release branch: no pinch acted on and no scroll. */
  predicate Releases(s: Snapshot, lm: Hand)
  {
    Cascade(lm) && !ThumbIndexPinch(lm).pinching
    && !(IndexMiddlePinch(lm).pinching && !s.kb.visible)
    && !FrameScroll(s, lm).scrolling
  }

  /** The state the cascade starts from: the pause flag is cleared first (main.py:199). */
  function Unpaused(s: Snapshot): Snapshot
  {
    s.(ctrl := s.ctrl.(paused := false))
  }

  /** The pinch start time after a pinch frame that does not type. */
  function PinchStartAfter(c: CtrlState, now: real): real
  {
    if c.pinchStart == 0.0 then now else c.pinchStart
  }

  lemma MoveCursorEvents(c: CtrlState, fx: int, fy: int, frameW: int, frameH: int, k: EventKind)
    requires frameW > 0 && frameH > 0
    ensures var d := c.MoveCursor(fx, fy, frameW, frameH);
      && d.events == c.events + (if c.paused then [] else [d.events[|d.events| - 1]])
      && Count(d.events, k) == Count(c.events, k) + (if !c.paused && k == MoveKind then 1 else 0)
      && d.(prevX := c.prevX, prevY := c.prevY, events := c.events) == c
  {
  }

  /** Cursor moves and hovers leave everything but the smoothing state, the keyboard and the move events alone. */
  lemma TrackEffects(s: Snapshot, lm: Hand, frameW: int, frameH: int, now: real, k: EventKind)
    requires frameW > 0 && frameH > 0
    ensures var t := Track(s, lm, frameW, frameH, now);
      && t.anchor == FrameScroll(s, lm).anchor
      && t.ctrl.(prevX := s.ctrl.prevX, prevY := s.ctrl.prevY, events := s.ctrl.events) == s.ctrl
      && s.ctrl.events <= t.ctrl.events
      && (k != MoveKind ==> Count(t.ctrl.events, k) == Count(s.ctrl.events, k))
      && t.kb == (if !FrameScroll(s, lm).scrolling && s.kb.visible then Hovered(s.kb, lm, now) else s.kb)
      && (t.gestureText, t.statusText, t.lastPressedKey, t.lastPressedTime)
         == (s.gestureText, s.statusText, s.lastPressedKey, s.lastPressedTime)
  {
    var tip := IndexFingerTip(lm);
    if !FrameScroll(s, lm).scrolling && tip.Some? && !s.kb.visible {
      MoveCursorEvents(s.ctrl, tip.value.x, tip.value.y, frameW, frameH, k);
    }
  }

  // ----- Which branch of the cascade runs -----

  lemma PinchDispatch(s: Snapshot, lm: Hand, frameW: int, frameH: int, now: real)
    requires frameW > 0 && frameH > 0
    requires Cascade(lm) && ThumbIndexPinch(lm).pinching
    ensures Transition(s, lm, frameW, frameH, now)
            == PinchAction(Track(Unpaused(s), lm, frameW, frameH, now), lm, frameW, frameH, now)
  {
  }

  lemma RightClickDispatch(s: Snapshot, lm: Hand, frameW: int, frameH: int, now: real)
    requires frameW > 0 && frameH > 0
    requires Cascade(lm) && !ThumbIndexPinch(lm).pinching && IndexMiddlePinch(lm).pinching && !s.kb.visible
    ensures var s1 := Track(Unpaused(s), lm, frameW, frameH, now);
      Transition(s, lm, frameW, frameH, now)
      == s1.(gestureText := RightClick, ctrl := s1.ctrl.RightClick(now).0.(pinchStart := 0.0))
  {
  }

  lemma ScrollDispatch(s: Snapshot, lm: Hand, frameW: int, frameH: int, now: real)
    requires frameW > 0 && frameH > 0
    requires Cascade(lm) && !ThumbIndexPinch(lm).pinching && !IndexMiddlePinch(lm).pinching
    requires FrameScroll(s, lm).scrolling
    ensures var s1 := Track(Unpaused(s), lm, frameW, frameH, now);
      var d := FrameScroll(s, lm).delta;
      Transition(s, lm, frameW, frameH, now)
      == s1.(gestureText := Scrolling, ctrl := if RealAbs(d) > 2.0 then s1.ctrl.Scroll(d, now) else s1.ctrl)
  {
    assert FrameScroll(Unpaused(s), lm) == FrameScroll(s, lm);
  }

  /** With no pinch acted on and no scroll, the frame is the cursor update followed by the release branch. */
  lemma ReleaseDispatch(s: Snapshot, lm: Hand, frameW: int, frameH: int, now: real)
    requires frameW > 0 && frameH > 0
    requires Releases(s, lm)
    ensures Transition(s, lm, frameW, frameH, now) == Release(Track(Unpaused(s), lm, frameW, frameH, now), now)
  {
    assert FrameScroll(Unpaused(s), lm) == FrameScroll(s, lm);
  }

  // ----- What each branch appends to the log -----

  lemma StopDragEvents(c: CtrlState, k: EventKind)
    ensures Count(c.StopDrag().events, k) == Count(c.events, k) + (if c.dragging && k == UpKind then 1 else 0)
  {
    if c.dragging {
      CountSnoc(c.events, MouseUp, k);
    }
  }

  lemma PressEvents(s: Snapshot, now: real, k: EventKind)
    requires s.kb.visible && Truthy(PressTarget(s, now))
    ensures var c := s.ctrl.PressKey(PressTarget(s, now).value, now).0;
      Count(c.events, k) == Count(s.ctrl.events, k)
        + (if k == PressKind && now - s.ctrl.lastKeyPress > KEY_PRESS_COOLDOWN then 1 else 0)
  {
    var key := PressTarget(s, now).value;
    if now - s.ctrl.lastKeyPress > KEY_PRESS_COOLDOWN {
      CountSnoc(s.ctrl.events, Pressed(KeyName(key)), k);
    }
  }

  lemma PinchTimerEvents(c: CtrlState, lm: Hand, frameW: int, frameH: int, now: real, k: EventKind)
    requires frameW > 0 && frameH > 0 && Complete(lm)
    ensures var c' := c.(pinchStart := PinchStartAfter(c, now));
      var drags := now - c'.pinchStart > DRAG_HOLD_THRESHOLD;
      var c2 := if drags then c'.StartDrag().MoveCursor(lm[INDEX_TIP].x, lm[INDEX_TIP].y, frameW, frameH) else c';
      && Count(c2.events, k) == Count(c.events, k)
           + (if drags && k == DownKind && !c.dragging then 1 else 0)
           + (if drags && k == MoveKind && !c.paused then 1 else 0)
      && c.events <= c2.events
      && c2.(prevX := c.prevX, prevY := c.prevY, events := c.events, dragging := c.dragging,
             pinchStart := c.pinchStart) == c
  {
    var c' := c.(pinchStart := PinchStartAfter(c, now));
    if !c'.dragging {
      CountSnoc(c'.events, MouseDown, k);
    }
    MoveCursorEvents(c'.StartDrag(), lm[INDEX_TIP].x, lm[INDEX_TIP].y, frameW, frameH, k);
  }

  /** The timer branch of `PinchAction`, relative to the state after tracking. */
  lemma PinchTimerOutcome(s: Snapshot, lm: Hand, frameW: int, frameH: int, now: real, k: EventKind)
    requires frameW > 0 && frameH > 0 && Complete(lm)
    requires !(s.kb.visible && Truthy(PressTarget(s, now)))
    ensures var t := PinchAction(s, lm, frameW, frameH, now);
      var start := PinchStartAfter(s.ctrl, now);
      var drags := now - start > DRAG_HOLD_THRESHOLD;
      && t.ctrl.pinchStart == start
      && t.ctrl.dragging == (s.ctrl.dragging || drags)
      && t.ctrl.(prevX := s.ctrl.prevX, prevY := s.ctrl.prevY, events := s.ctrl.events,
                 dragging := s.ctrl.dragging, pinchStart := s.ctrl.pinchStart) == s.ctrl
      && t.kb == s.kb && t.anchor == s.anchor
      && t.gestureText == (if drags then Dragging else PinchHold)
      && s.ctrl.events <= t.ctrl.events
      && Count(t.ctrl.events, k) == Count(s.ctrl.events, k)
           + (if drags && k == DownKind && !s.ctrl.dragging then 1 else 0)
           + (if drags && k == MoveKind && !s.ctrl.paused then 1 else 0)
  {
    PinchTimerEvents(s.ctrl, lm, frameW, frameH, now, k);
  }

  /** A pinch frame that does not type: the cursor update, then the timer branch. */
  lemma PinchTimerBranch(s: Snapshot, lm: Hand, frameW: int, frameH: int, now: real, k: EventKind)
    requires frameW > 0 && frameH > 0
    requires Cascade(lm) && ThumbIndexPinch(lm).pinching && !TypesKey(s, lm, now)
    ensures var s1 := Track(Unpaused(s), lm, frameW, frameH, now);
      var t := Transition(s, lm, frameW, frameH, now);
      var start := PinchStartAfter(s.ctrl, now);
      var drags := now - start > DRAG_HOLD_THRESHOLD;
      && t.ctrl.pinchStart == start
      && t.ctrl.dragging == (s.ctrl.dragging || drags)
      && t.ctrl.lastClick == s.ctrl.lastClick
      && t.kb == s1.kb && t.anchor == None
      && t.gestureText == (if drags then Dragging else PinchHold)
      && s.ctrl.events <= t.ctrl.events
      && Count(t.ctrl.events, k) == Count(s1.ctrl.events, k)
           + (if drags && k == DownKind && !s.ctrl.dragging then 1 else 0)
           + (if drags && k == MoveKind then 1 else 0)
  {
    PinchDispatch(s, lm, frameW, frameH, now);
    TrackEffects(Unpaused(s), lm, frameW, frameH, now, k);
    var s1 := Track(Unpaused(s), lm, frameW, frameH, now);
    assert !(s1.kb.visible && Truthy(PressTarget(s1, now)));
    PinchTimerOutcome(s1, lm, frameW, frameH, now, k);
  }

  lemma ReleaseEvents(s: Snapshot, now: real, k: EventKind)
    ensures var t := Release(s, now);
      var clicks := !s.ctrl.dragging && s.ctrl.pinchStart > 0.0 && now - s.ctrl.lastClick > s.ctrl.cooldown;
      && Count(t.ctrl.events, k) == Count(s.ctrl.events, k)
           + (if k == UpKind && s.ctrl.dragging then 1 else 0)
           + (if k == ClickKind && clicks then 1 else 0)
      && s.ctrl.events <= t.ctrl.events
      && t.ctrl.lastClick == (if clicks then now else s.ctrl.lastClick)
      && t.ctrl.pinchStart == 0.0 && !t.ctrl.dragging
      && t.kb == s.kb && t.anchor == s.anchor
  {
    if s.ctrl.dragging {
      CountSnoc(s.ctrl.events, MouseUp, k);
    } else if s.ctrl.pinchStart > 0.0 && now - s.ctrl.lastClick > s.ctrl.cooldown {
      CountSnoc(s.ctrl.events, Clicked, k);
    }
  }

  // ----- Properties of a frame -----

  /** A fist pauses, ends any drag with one MouseUp, and changes nothing else, not even the pinch timer. */
  lemma FistFrame(s: Snapshot, lm: Hand, frameW: int, frameH: int, now: real)
    requires frameW > 0 && frameH > 0
    requires DetectClosedFist(lm)
    ensures var t := Transition(s, lm, frameW, frameH, now);
      && t.ctrl == s.ctrl.(paused := true, dragging := false,
                           events := s.ctrl.events + (if s.ctrl.dragging then [MouseUp] else []))
      && t.kb == s.kb && t.anchor == s.anchor && t.gestureText == FistPaused
  {
  }

  /**
   * A three-finger raise unpauses and toggles the keyboard iff the toggle
   * cooldown has passed; drag, pinch timer, anchor and log are untouched.
   */
  lemma ThreeFingerFrame(s: Snapshot, lm: Hand, frameW: int, frameH: int, now: real)
    requires frameW > 0 && frameH > 0
    requires DetectThreeFingerRaise(lm)
    ensures var t := Transition(s, lm, frameW, frameH, now);
      var toggles := now - s.ctrl.lastToggle > TOGGLE_COOLDOWN;
      && t.ctrl == s.ctrl.(paused := false, lastToggle := if toggles then now else s.ctrl.lastToggle)
      && t.kb == (if toggles then s.kb.Toggle() else s.kb)
      && t.anchor == s.anchor && t.gestureText == ThreeFinger
  {
    PosesAreExclusive(lm);
  }

  /** Losing the hand ends any drag, clears the pinch timer and the scroll anchor, and keeps the pause flag. */
  lemma HandLost(s: Snapshot, frameW: int, frameH: int, now: real)
    requires frameW > 0 && frameH > 0
    ensures var t := Transition(s, [], frameW, frameH, now);
      && t.ctrl == s.ctrl.(dragging := false, pinchStart := 0.0,
                           events := s.ctrl.events + (if s.ctrl.dragging then [MouseUp] else []))
      && t.ctrl.paused == s.ctrl.paused
      && t.anchor == None && t.kb == s.kb && t.gestureText == NoHand
  {
  }

  /** The log only grows, and the configuration and the keyboard's rectangles never change. */
  lemma LogOnlyGrows(s: Snapshot, lm: Hand, frameW: int, frameH: int, now: real)
    requires frameW > 0 && frameH > 0
    ensures var t := Transition(s, lm, frameW, frameH, now);
      && s.ctrl.events <= t.ctrl.events
      && (t.ctrl.screenW, t.ctrl.screenH, t.ctrl.smoothing, t.ctrl.cooldown)
         == (s.ctrl.screenW, s.ctrl.screenH, s.ctrl.smoothing, s.ctrl.cooldown)
      && t.kb.rects == s.kb.rects
  {
    if Cascade(lm) {
      TrackEffects(Unpaused(s), lm, frameW, frameH, now, MoveKind);
      if ThumbIndexPinch(lm).pinching {
        PinchLogGrows(s, lm, frameW, frameH, now);
      } else {
        OtherLogGrows(s, lm, frameW, frameH, now);
      }
    }
  }

  lemma PinchLogGrows(s: Snapshot, lm: Hand, frameW: int, frameH: int, now: real)
    requires frameW > 0 && frameH > 0
    requires Cascade(lm) && ThumbIndexPinch(lm).pinching
    ensures var t := Transition(s, lm, frameW, frameH, now);
      && s.ctrl.events <= t.ctrl.events
      && (t.ctrl.screenW, t.ctrl.screenH, t.ctrl.smoothing, t.ctrl.cooldown)
         == (s.ctrl.screenW, s.ctrl.screenH, s.ctrl.smoothing, s.ctrl.cooldown)
  {
    TrackEffects(Unpaused(s), lm, frameW, frameH, now, MoveKind);
    PinchDispatch(s, lm, frameW, frameH, now);
    if !TypesKey(s, lm, now) {
      PinchTimerBranch(s, lm, frameW, frameH, now, MoveKind);
    }
  }

  lemma OtherLogGrows(s: Snapshot, lm: Hand, frameW: int, frameH: int, now: real)
    requires frameW > 0 && frameH > 0
    requires Cascade(lm) && !ThumbIndexPinch(lm).pinching
    ensures var t := Transition(s, lm, frameW, frameH, now);
      && s.ctrl.events <= t.ctrl.events
      && (t.ctrl.screenW, t.ctrl.screenH, t.ctrl.smoothing, t.ctrl.cooldown)
         == (s.ctrl.screenW, s.ctrl.screenH, s.ctrl.smoothing, s.ctrl.cooldown)
  {
    TrackEffects(Unpaused(s), lm, frameW, frameH, now, MoveKind);
    if IndexMiddlePinch(lm).pinching && !s.kb.visible {
      RightClickDispatch(s, lm, frameW, frameH, now);
    } else if FrameScroll(s, lm).scrolling {
      ScrollDispatch(s, lm, frameW, frameH, now);
    } else {
      ReleaseDispatch(s, lm, frameW, frameH, now);
      ReleaseEvents(Track(Unpaused(s), lm, frameW, frameH, now), now, MoveKind);
    }
  }

  /** An active pinch or a visible keyboard disables scrolling for the frame and clears the anchor. */
  lemma ScrollSuppressed(s: Snapshot, lm: Hand, frameW: int, frameH: int, now: real)
    requires frameW > 0 && frameH > 0
    requires Cascade(lm)
    requires ThumbIndexPinch(lm).pinching || IndexMiddlePinch(lm).pinching || s.kb.visible
    ensures var t := Transition(s, lm, frameW, frameH, now);
      && t.anchor == None
      && t.ctrl.lastScroll == s.ctrl.lastScroll
      && Count(t.ctrl.events, ScrollKind) == Count(s.ctrl.events, ScrollKind)
  {
    TrackEffects(Unpaused(s), lm, frameW, frameH, now, ScrollKind);
    var s1 := Track(Unpaused(s), lm, frameW, frameH, now);
    if ThumbIndexPinch(lm).pinching {
      PinchDispatch(s, lm, frameW, frameH, now);
      if TypesKey(s, lm, now) {
        PressEvents(s1, now, ScrollKind);
      } else {
        PinchTimerBranch(s, lm, frameW, frameH, now, ScrollKind);
      }
    } else if IndexMiddlePinch(lm).pinching && !s.kb.visible {
      RightClickDispatch(s, lm, frameW, frameH, now);
    } else {
      ReleaseDispatch(s, lm, frameW, frameH, now);
      ReleaseEvents(s1, now, ScrollKind);
    }
  }

  /**
   * A thumb-index pinch on a visible keyboard with a press candidate
   * (after this frame's hover) presses that key, subject to the key-press
   * cooldown, and leaves the pinch timer and the drag state alone.
   */
  lemma KeyboardPressFrame(s: Snapshot, lm: Hand, frameW: int, frameH: int, now: real)
    requires frameW > 0 && frameH > 0
    requires Cascade(lm) && ThumbIndexPinch(lm).pinching && TypesKey(s, lm, now)
    ensures var t := Transition(s, lm, frameW, frameH, now);
      var key := Hovered(s.kb, lm, now).PressCandidate(now).value;
      var fires := now - s.ctrl.lastKeyPress > KEY_PRESS_COOLDOWN;
      && t.kb == Hovered(s.kb, lm, now)
      && t.ctrl == s.ctrl.(paused := false,
                           lastKeyPress := if fires then now else s.ctrl.lastKeyPress,
                           events := s.ctrl.events + (if fires then [Pressed(KeyName(key))] else []))
      && t.gestureText == KeyboardPress(key)
      && t.anchor == None
  {
    PinchDispatch(s, lm, frameW, frameH, now);
  }

  /**
   * Any other thumb-index pinch starts the pinch timer on its first frame
   * (timer 0); the drag begins only once the hold strictly exceeds 0.3 s,
   * and no click, right click, scroll or key press is issued.
   */
  lemma PinchHoldFrame(s: Snapshot, lm: Hand, frameW: int, frameH: int, now: real)
    requires frameW > 0 && frameH > 0
    requires Cascade(lm) && ThumbIndexPinch(lm).pinching && !TypesKey(s, lm, now)
    ensures var t := Transition(s, lm, frameW, frameH, now);
      var start := PinchStartAfter(s.ctrl, now);
      && t.ctrl.pinchStart == start
      && t.ctrl.dragging == (s.ctrl.dragging || now - start > DRAG_HOLD_THRESHOLD)
      && (now - start == DRAG_HOLD_THRESHOLD ==> t.ctrl.dragging == s.ctrl.dragging)
      && t.ctrl.lastClick == s.ctrl.lastClick
      && (!s.kb.visible ==> t.kb == s.kb)
      && t.gestureText == (if now - start > DRAG_HOLD_THRESHOLD then Dragging else PinchHold)
      && Count(t.ctrl.events, ClickKind) == Count(s.ctrl.events, ClickKind)
      && Count(t.ctrl.events, RightClickKind) == Count(s.ctrl.events, RightClickKind)
      && Count(t.ctrl.events, ScrollKind) == Count(s.ctrl.events, ScrollKind)
      && Count(t.ctrl.events, PressKind) == Count(s.ctrl.events, PressKind)
  {
    PinchCounts(s, lm, frameW, frameH, now, ClickKind);
    PinchCounts(s, lm, frameW, frameH, now, RightClickKind);
    PinchCounts(s, lm, frameW, frameH, now, ScrollKind);
    PinchCounts(s, lm, frameW, frameH, now, PressKind);
    TrackEffects(Unpaused(s), lm, frameW, frameH, now, MoveKind);
  }

  lemma PinchCounts(s: Snapshot, lm: Hand, frameW: int, frameH: int, now: real, k: EventKind)
    requires frameW > 0 && frameH > 0
    requires Cascade(lm) && ThumbIndexPinch(lm).pinching && !TypesKey(s, lm, now)
    requires k != MoveKind && k != DownKind
    ensures Count(Transition(s, lm, frameW, frameH, now).ctrl.events, k) == Count(s.ctrl.events, k)
  {
    TrackEffects(Unpaused(s), lm, frameW, frameH, now, k);
    PinchTimerBranch(s, lm, frameW, frameH, now, k);
  }

  /**
   * While dragging with the keyboard hidden the cursor is moved twice in
   * the frame (main.py:221 and main.py:253), with a MouseDown between the
   * two on the frame the drag begins.
   */
  lemma DragMovesTwice(s: Snapshot, lm: Hand, frameW: int, frameH: int, now: real)
    requires frameW > 0 && frameH > 0
    requires Cascade(lm) && ThumbIndexPinch(lm).pinching && !s.kb.visible
    requires now - PinchStartAfter(s.ctrl, now) > DRAG_HOLD_THRESHOLD
    ensures var t := Transition(s, lm, frameW, frameH, now);
      var n := |s.ctrl.events|;
      && |t.ctrl.events| == n + (if s.ctrl.dragging then 2 else 3)
      && t.ctrl.events[n].Moved? && t.ctrl.events[|t.ctrl.events| - 1].Moved?
      && (!s.ctrl.dragging ==> t.ctrl.events[n + 1] == MouseDown)
      && t.ctrl.dragging
  {
    PinchDispatch(s, lm, frameW, frameH, now);
    var s0 := Unpaused(s);
    TrackEffects(s0, lm, frameW, frameH, now, MoveKind);
    var s1 := Track(s0, lm, frameW, frameH, now);
    var c := s1.ctrl.(pinchStart := PinchStartAfter(s1.ctrl, now));
    MoveCursorEvents(s0.ctrl, lm[INDEX_TIP].x, lm[INDEX_TIP].y, frameW, frameH, MoveKind);
    MoveCursorEvents(c.StartDrag(), lm[INDEX_TIP].x, lm[INDEX_TIP].y, frameW, frameH, MoveKind);
  }

  /**
   * On a frame with no pinch and no scroll: a drag ends with one MouseUp
   * and no click; otherwise a running pinch timer gives exactly one left
   * click attempt; the pinch timer is then reset.
   */
  lemma ReleaseFrame(s: Snapshot, lm: Hand, frameW: int, frameH: int, now: real)
    requires frameW > 0 && frameH > 0
    requires Releases(s, lm)
    ensures var t := Transition(s, lm, frameW, frameH, now);
      var clicks := !s.ctrl.dragging && s.ctrl.pinchStart > 0.0 && now - s.ctrl.lastClick > s.ctrl.cooldown;
      && t.ctrl.pinchStart == 0.0 && !t.ctrl.dragging
      && t.ctrl.lastClick == (if clicks then now else s.ctrl.lastClick)
      && Count(t.ctrl.events, ClickKind) == Count(s.ctrl.events, ClickKind) + (if clicks then 1 else 0)
      && Count(t.ctrl.events, UpKind) == Count(s.ctrl.events, UpKind) + (if s.ctrl.dragging then 1 else 0)
      && Count(t.ctrl.events, RightClickKind) == Count(s.ctrl.events, RightClickKind)
      && Count(t.ctrl.events, DownKind) == Count(s.ctrl.events, DownKind)
      && t.kb.visible == s.kb.visible && t.anchor == FrameScroll(s, lm).anchor
  {
    ReleaseDispatch(s, lm, frameW, frameH, now);
    ReleaseCount(s, lm, frameW, frameH, now, ClickKind);
    ReleaseCount(s, lm, frameW, frameH, now, UpKind);
    ReleaseCount(s, lm, frameW, frameH, now, RightClickKind);
    ReleaseCount(s, lm, frameW, frameH, now, DownKind);
    TrackEffects(Unpaused(s), lm, frameW, frameH, now, MoveKind);
    ReleaseEvents(Track(Unpaused(s), lm, frameW, frameH, now), now, MoveKind);
  }

  lemma ReleaseCount(s: Snapshot, lm: Hand, frameW: int, frameH: int, now: real, k: EventKind)
    requires frameW > 0 && frameH > 0 && k != MoveKind
    ensures Count(Release(Track(Unpaused(s), lm, frameW, frameH, now), now).ctrl.events, k) == Count(s.ctrl.events, k)
        + (if k == UpKind && s.ctrl.dragging then 1 else 0)
        + (if k == ClickKind && !s.ctrl.dragging && s.ctrl.pinchStart > 0.0
              && now - s.ctrl.lastClick > s.ctrl.cooldown then 1 else 0)
  {
    TrackEffects(Unpaused(s), lm, frameW, frameH, now, k);
    ReleaseEvents(Track(Unpaused(s), lm, frameW, frameH, now), now, k);
  }

  /** After one release frame a second one in a row attempts no click: at most one click per pinch release. */
  lemma AtMostOneClickPerRelease(s: Snapshot, lm: Hand, lm': Hand, frameW: int, frameH: int, now: real, now': real)
    requires frameW > 0 && frameH > 0
    requires Releases(s, lm)
    requires Releases(Transition(s, lm, frameW, frameH, now), lm')
    ensures var t := Transition(s, lm, frameW, frameH, now);
      Count(Transition(t, lm', frameW, frameH, now').ctrl.events, ClickKind) == Count(t.ctrl.events, ClickKind)
  {
    ReleaseFrame(s, lm, frameW, frameH, now);
    ReleaseFrame(Transition(s, lm, frameW, frameH, now), lm', frameW, frameH, now');
  }

  /**
   * A pinch frame with the keyboard hidden, no drag running and a hold of
   * at most 0.3 s: the timer is started or kept, no drag begins, and no
   * click or MouseDown is logged.
   */
  lemma ShortPinchFrame(s: Snapshot, lm: Hand, frameW: int, frameH: int, now: real)
    requires frameW > 0 && frameH > 0
    requires !s.kb.visible && !s.ctrl.dragging
    requires Cascade(lm) && ThumbIndexPinch(lm).pinching
    requires now - PinchStartAfter(s.ctrl, now) <= DRAG_HOLD_THRESHOLD
    ensures var t := Transition(s, lm, frameW, frameH, now);
      && t.ctrl.pinchStart == PinchStartAfter(s.ctrl, now)
      && !t.ctrl.dragging && t.kb == s.kb
      && t.ctrl.lastClick == s.ctrl.lastClick && t.ctrl.cooldown == s.ctrl.cooldown
      && Count(t.ctrl.events, ClickKind) == Count(s.ctrl.events, ClickKind)
      && Count(t.ctrl.events, DownKind) == Count(s.ctrl.events, DownKind)
  {
    PinchHoldFrame(s, lm, frameW, frameH, now);
    PinchTimerBranch(s, lm, frameW, frameH, now, DownKind);
    TrackEffects(Unpaused(s), lm, frameW, frameH, now, DownKind);
    LogOnlyGrows(s, lm, frameW, frameH, now);
  }

  /**
   * A quick tap with the keyboard hidden: a pinch frame at time t > 0
   * from an idle timer, then a release frame at t', issues exactly one
   * click attempt (it fires iff the click cooldown has passed) and no drag.
   */
  lemma TapClicksOnce(s: Snapshot, pinch: Hand, release: Hand, frameW: int, frameH: int, t: real, t': real)
    requires frameW > 0 && frameH > 0
    requires !s.kb.visible && s.ctrl.pinchStart == 0.0 && !s.ctrl.dragging && t > 0.0
    requires Cascade(pinch) && ThumbIndexPinch(pinch).pinching
    requires Releases(Transition(s, pinch, frameW, frameH, t), release)
    ensures var u := Transition(Transition(s, pinch, frameW, frameH, t), release, frameW, frameH, t');
      && Count(u.ctrl.events, ClickKind)
         == Count(s.ctrl.events, ClickKind) + (if t' - s.ctrl.lastClick > s.ctrl.cooldown then 1 else 0)
      && Count(u.ctrl.events, DownKind) == Count(s.ctrl.events, DownKind)
      && !u.ctrl.dragging && u.ctrl.pinchStart == 0.0
  {
    ShortPinchFrame(s, pinch, frameW, frameH, t);
    ReleaseFrame(Transition(s, pinch, frameW, frameH, t), release, frameW, frameH, t');
  }

  /** The session after the frames `hs`, frame i arriving at time `ts[i]`: successive passes of the main loop. */
  function RunFrames(s: Snapshot, hs: seq<Hand>, ts: seq<real>, frameW: int, frameH: int): Snapshot
    requires frameW > 0 && frameH > 0 && |hs| == |ts|
    decreases |hs|
  {
    if |hs| == 0 then s
    else
      var n := |hs| - 1;
      Transition(RunFrames(s, hs[..n], ts[..n], frameW, frameH), hs[n], frameW, frameH, ts[n])
  }

  /** A held thumb-index pinch: every frame pinches, the first at ts[0] > 0, none more than 0.3 s after it. */
  predicate ShortPinchRun(hs: seq<Hand>, ts: seq<real>)
  {
    && |hs| == |ts| && |hs| > 0 && ts[0] > 0.0
    && (forall i :: 0 <= i < |hs| ==> Cascade(hs[i]) && ThumbIndexPinch(hs[i]).pinching)
    && (forall i :: 0 <= i < |ts| ==> ts[i] - ts[0] <= DRAG_HOLD_THRESHOLD)
  }

  /**
   * The state a short pinch holds, relative to the state `s` it started
   * from: the timer at t0, no drag, the keyboard, last click, cooldown,
   * and the click and MouseDown counts as in `s`.
   */
  predicate PinchHeld(s: Snapshot, r: Snapshot, t0: real)
  {
    && r.ctrl.pinchStart == t0 && !r.ctrl.dragging && r.kb == s.kb
    && r.ctrl.lastClick == s.ctrl.lastClick && r.ctrl.cooldown == s.ctrl.cooldown
    && Count(r.ctrl.events, ClickKind) == Count(s.ctrl.events, ClickKind)
    && Count(r.ctrl.events, DownKind) == Count(s.ctrl.events, DownKind)
  }

  /** One more pinch frame within 0.3 s of the start keeps the pinch held. */
  lemma PinchHeldStep(s: Snapshot, r: Snapshot, lm: Hand, frameW: int, frameH: int, t0: real, now: real)
    requires frameW > 0 && frameH > 0
    requires !s.kb.visible && t0 > 0.0 && PinchHeld(s, r, t0)
    requires Cascade(lm) && ThumbIndexPinch(lm).pinching && now - t0 <= DRAG_HOLD_THRESHOLD
    ensures PinchHeld(s, Transition(r, lm, frameW, frameH, now), t0)
  {
    ShortPinchFrame(r, lm, frameW, frameH, now);
  }

  /**
   * Through a short pinch held over several frames the timer holds the
   * first frame's time, no drag begins, the keyboard stays hidden, and no
   * click or MouseDown is logged.
   */
  lemma {:induction false} ShortPinchRunHolds(s: Snapshot, hs: seq<Hand>, ts: seq<real>, frameW: int, frameH: int)
    requires frameW > 0 && frameH > 0
    requires !s.kb.visible && s.ctrl.pinchStart == 0.0 && !s.ctrl.dragging
    requires ShortPinchRun(hs, ts)
    ensures PinchHeld(s, RunFrames(s, hs, ts, frameW, frameH), ts[0])
    decreases |hs|
  {
    var n := |hs| - 1;
    var hp, tp := hs[..n], ts[..n];
    assert RunFrames(s, hs, ts, frameW, frameH)
           == Transition(RunFrames(s, hp, tp, frameW, frameH), hs[n], frameW, frameH, ts[n]);
    if n == 0 {
      assert RunFrames(s, hp, tp, frameW, frameH) == s;
      ShortPinchFrame(s, hs[0], frameW, frameH, ts[0]);
    } else {
      assert tp[0] == ts[0];
      assert ShortPinchRun(hp, tp) by {
        forall i | 0 <= i < n ensures Cascade(hp[i]) && ThumbIndexPinch(hp[i]).pinching {
          assert hp[i] == hs[i];
        }
        forall i | 0 <= i < n ensures tp[i] - tp[0] <= DRAG_HOLD_THRESHOLD {
          assert tp[i] == ts[i];
        }
      }
      ShortPinchRunHolds(s, hp, tp, frameW, frameH);
      PinchHeldStep(s, RunFrames(s, hp, tp, frameW, frameH), hs[n], frameW, frameH, ts[0], ts[n]);
    }
  }

  /**
   * A tap held over several frames: a short pinch run with the keyboard
   * hidden from an idle timer, then a release frame at t', issues exactly
   * one click attempt (it fires iff the click cooldown has passed since
   * the last click before the run) and no drag.
   */
  lemma TapRunClicksOnce(s: Snapshot, hs: seq<Hand>, ts: seq<real>, release: Hand, frameW: int, frameH: int, t': real)
    requires frameW > 0 && frameH > 0
    requires !s.kb.visible && s.ctrl.pinchStart == 0.0 && !s.ctrl.dragging
    requires ShortPinchRun(hs, ts)
    requires Releases(RunFrames(s, hs, ts, frameW, frameH), release)
    ensures var u := Transition(RunFrames(s, hs, ts, frameW, frameH), release, frameW, frameH, t');
      && Count(u.ctrl.events, ClickKind)
         == Count(s.ctrl.events, ClickKind) + (if t' - s.ctrl.lastClick > s.ctrl.cooldown then 1 else 0)
      && Count(u.ctrl.events, DownKind) == Count(s.ctrl.events, DownKind)
      && !u.ctrl.dragging && u.ctrl.pinchStart == 0.0
  {
    ShortPinchRunHolds(s, hs, ts, frameW, frameH);
    ReleaseFrame(RunFrames(s, hs, ts, frameW, frameH), release, frameW, frameH, t');
  }

  /**
   * A frame of 1 to 20 landmarks is not the no-hand branch: it passes the
   * `if landmarks:` test, no detector fires, and it reaches the release
   * branch, so a running pinch timer still gives a left click attempt.
   */
  lemma PartialHandReleases(s: Snapshot, lm: Hand, frameW: int, frameH: int, now: real)
    requires frameW > 0 && frameH > 0
    requires 0 < |lm| < LANDMARK_COUNT
    ensures Releases(s, lm)
    ensures var t := Transition(s, lm, frameW, frameH, now);
      var clicks := !s.ctrl.dragging && s.ctrl.pinchStart > 0.0 && now - s.ctrl.lastClick > s.ctrl.cooldown;
      && t.gestureText != NoHand && !t.ctrl.paused
      && Count(t.ctrl.events, ClickKind) == Count(s.ctrl.events, ClickKind) + (if clicks then 1 else 0)
      && Count(t.ctrl.events, MoveKind) == Count(s.ctrl.events, MoveKind)
      && t.ctrl.pinchStart == 0.0 && !t.ctrl.dragging && t.anchor == None
  {
    IncompleteHandDefaults(lm, s.anchor);
    ReleaseDispatch(s, lm, frameW, frameH, now);
    ReleaseFrame(s, lm, frameW, frameH, now);
    ReleaseEvents(Track(Unpaused(s), lm, frameW, frameH, now), now, MoveKind);
  }

  /**
   * The fist does not reset the pinch timer: a pinch interrupted by a
   * fist and then released still attempts a left click.
   */
  lemma FistKeepsPinchTimer(s: Snapshot, fist: Hand, release: Hand, frameW: int, frameH: int, t: real, t': real)
    requires frameW > 0 && frameH > 0
    requires s.ctrl.pinchStart > 0.0 && !s.ctrl.dragging
    requires DetectClosedFist(fist)
    requires Releases(Transition(s, fist, frameW, frameH, t), release)
    ensures var u := Transition(Transition(s, fist, frameW, frameH, t), release, frameW, frameH, t');
      Count(u.ctrl.events, ClickKind)
        == Count(s.ctrl.events, ClickKind) + (if t' - s.ctrl.lastClick > s.ctrl.cooldown then 1 else 0)
  {
    FistFrame(s, fist, frameW, frameH, t);
    ReleaseFrame(Transition(s, fist, frameW, frameH, t), release, frameW, frameH, t');
  }

  /**
   * An index-middle pinch with the keyboard hidden right-clicks (subject to
   * its cooldown) and resets the pinch timer; with the keyboard shown it
   * falls through to the release branch and issues no right click.
   */
  lemma IndexMiddleFrame(s: Snapshot, lm: Hand, frameW: int, frameH: int, now: real)
    requires frameW > 0 && frameH > 0
    requires Cascade(lm) && !ThumbIndexPinch(lm).pinching && IndexMiddlePinch(lm).pinching
    ensures var t := Transition(s, lm, frameW, frameH, now);
      var fires := !s.kb.visible && now - s.ctrl.lastRightClick > s.ctrl.cooldown;
      && t.ctrl.pinchStart == 0.0
      && t.anchor == None
      && Count(t.ctrl.events, RightClickKind) == Count(s.ctrl.events, RightClickKind) + (if fires then 1 else 0)
      && (!s.kb.visible ==> t.ctrl.dragging == s.ctrl.dragging && t.gestureText == RightClick)
      && (s.kb.visible ==> Releases(s, lm) && !t.ctrl.dragging)
  {
    TrackEffects(Unpaused(s), lm, frameW, frameH, now, RightClickKind);
    var s1 := Track(Unpaused(s), lm, frameW, frameH, now);
    if s.kb.visible {
      ReleaseFrame(s, lm, frameW, frameH, now);
    } else {
      RightClickDispatch(s, lm, frameW, frameH, now);
      if now - s1.ctrl.lastRightClick > s1.ctrl.cooldown {
        CountSnoc(s1.ctrl.events, RightClicked, RightClickKind);
      }
    }
  }

  /**
   * A scroll frame (scroll pose, no pinch, keyboard hidden) calls the
   * controller's scroll only when |delta| > 2, moves the anchor to this
   * frame's average tip height, and moves no cursor.
   */
  lemma ScrollFrame(s: Snapshot, lm: Hand, frameW: int, frameH: int, now: real)
    requires frameW > 0 && frameH > 0
    requires Cascade(lm) && ScrollEnabled(s, lm) && TwoFingersUp(lm)
    ensures var t := Transition(s, lm, frameW, frameH, now);
      var d := ScrollStep(s.anchor, lm).delta;
      var scrolls := RealAbs(d) > 2.0 && now - s.ctrl.lastScroll > SCROLL_INTERVAL;
      && t.anchor == Some(AverageTipY(lm))
      && t.ctrl.lastScroll == (if scrolls then now else s.ctrl.lastScroll)
      && t.ctrl.events == s.ctrl.events
           + (if scrolls && ScrollAmount(d) != 0 then [Scrolled(ScrollAmount(d))] else [])
      && t.ctrl.pinchStart == s.ctrl.pinchStart && t.ctrl.dragging == s.ctrl.dragging
      && t.gestureText == Scrolling
  {
    ScrollDispatch(s, lm, frameW, frameH, now);
  }

  /** Whatever the frame, it issues at most one left click. */
  lemma AtMostOneClickPerFrame(s: Snapshot, lm: Hand, frameW: int, frameH: int, now: real)
    requires frameW > 0 && frameH > 0
    ensures Count(Transition(s, lm, frameW, frameH, now).ctrl.events, ClickKind) <= Count(s.ctrl.events, ClickKind) + 1
  {
    if !Cascade(lm) {
      if |lm| == 0 || DetectClosedFist(lm) {
        StopDragEvents(s.ctrl, ClickKind);
        StopDragEvents(s.ctrl.(paused := true), ClickKind);
      }
    } else {
      TrackEffects(Unpaused(s), lm, frameW, frameH, now, ClickKind);
      var s1 := Track(Unpaused(s), lm, frameW, frameH, now);
      if ThumbIndexPinch(lm).pinching {
        PinchDispatch(s, lm, frameW, frameH, now);
        if TypesKey(s, lm, now) {
          PressEvents(s1, now, ClickKind);
        } else {
          PinchTimerBranch(s, lm, frameW, frameH, now, ClickKind);
        }
      } else if IndexMiddlePinch(lm).pinching && !s.kb.visible {
        RightClickDispatch(s, lm, frameW, frameH, now);
        if now - s1.ctrl.lastRightClick > s1.ctrl.cooldown {
          CountSnoc(s1.ctrl.events, RightClicked, ClickKind);
        }
      } else if FrameScroll(s, lm).scrolling {
        ScrollDispatch(s, lm, frameW, frameH, now);
        var d := FrameScroll(s, lm).delta;
        if now - s1.ctrl.lastScroll > SCROLL_INTERVAL && ScrollAmount(d) != 0 {
          CountSnoc(s1.ctrl.events, Scrolled(ScrollAmount(d)), ClickKind);
        }
      } else {
        ReleaseFrame(s, lm, frameW, frameH, now);
      }
    }
  }
}
