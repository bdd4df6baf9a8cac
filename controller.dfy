/**
 * Pointer and keyboard output (mouse_keyboard_controller.py): the
 * active-zone map onto the screen, exponential smoothing, five
 * independent cooldown timers, the drag flag and scroll quantisation.
 * Operating-system calls become events appended to a log, and the
 * wall clock is the explicit argument `now`.
 */
module Controller {
  import opened RealArith

  /** The operating-system actions, in the order they are issued. */
  datatype Event =
    | Moved(x: int, y: int)
    | Clicked
    | RightClicked
    | MouseDown
    | MouseUp
    | Scrolled(clicks: int)
    | Pressed(key: string)
  {
    function Kind(): EventKind
    {
      match this
      case Moved(_, _) => MoveKind
      case Clicked => ClickKind
      case RightClicked => RightClickKind
      case MouseDown => DownKind
      case MouseUp => UpKind
      case Scrolled(_) => ScrollKind
      case Pressed(_) => PressKind
    }
  }

  datatype EventKind = MoveKind | ClickKind | RightClickKind | DownKind | UpKind | ScrollKind | PressKind

  /** How many events of a kind a log holds. */
  function Count(es: seq<Event>, k: EventKind): nat
    decreases |es|
  {
    if es == [] then 0 else Count(es[..|es| - 1], k) + (if es[|es| - 1].Kind() == k then 1 else 0)
  }

  lemma CountSnoc(es: seq<Event>, e: Event, k: EventKind)
    ensures Count(es + [e], k) == Count(es, k) + (if e.Kind() == k then 1 else 0)
  {
    assert (es + [e])[..|es|] == es;
  }

  /** Fraction of the frame trimmed from each side to form the active zone. */
  const DEFAULT_MARGIN: real := 0.15
  /** Minimum seconds between scroll events. */
  const SCROLL_INTERVAL: real := 0.05
  /** Pixels of finger movement per scroll click. */
  const SCROLL_DIVISOR: real := 5.0
  const KEY_PRESS_COOLDOWN: real := 0.5
  const TOGGLE_COOLDOWN: real := 0.8
  /** Seconds a pinch must be held before it becomes a drag. */
  const DRAG_HOLD_THRESHOLD: real := 0.3

  /** `numpy.clip` of one value. */
  function Clip(v: real, lo: real, hi: real): real
  {
    if v < lo then lo else if v > hi then hi else v
  }

  /** One axis of the map: clamp into the active zone, then interpolate onto [0, screen]. */
  function MapAxis(f: real, frame: real, screen: real, margin: real): real
    requires frame > 0.0 && 0.0 <= margin < 0.5
  {
    var lo, hi := frame * margin, frame * (1.0 - margin);
    (Clip(f, lo, hi) - lo) * screen / (hi - lo)
  }

  /** Camera pixels to screen pixels through the active zone. */
  function MapCoordinates(fx: real, fy: real, frameW: real, frameH: real,
                          screenW: real, screenH: real, margin: real): (real, real)
    requires frameW > 0.0 && frameH > 0.0 && 0.0 <= margin < 0.5
  {
    (MapAxis(fx, frameW, screenW, margin), MapAxis(fy, frameH, screenH, margin))
  }

  /** One step of the exponential moving average. */
  function Ema(prev: real, target: real, alpha: real): real
  {
    prev + alpha * (target - prev)
  }

  /** Python's `int()` of a float: truncation toward zero. */
  function Trunc(r: real): (n: int)
    ensures r >= 0.0 ==> n as real <= r < n as real + 1.0
    ensures r < 0.0 ==> n as real - 1.0 < r <= n as real
  {
    if r >= 0.0 then r.Floor else -((-r).Floor)
  }

  /** Scroll clicks for a finger movement: `int(-delta / 5)`. */
  function ScrollAmount(delta: real): int
  {
    Trunc(-delta / SCROLL_DIVISOR)
  }

  function LowerChar(c: char): char
  {
    if 'A' <= c <= 'Z' then (c as int + 32) as char else c
  }

  /** ASCII lower-casing. */
  function Lower(s: string): (r: string)
    ensures |r| == |s|
  {
    seq(|s|, i requires 0 <= i < |s| => LowerChar(s[i]))
  }

  /** The key name sent for a keyboard key. */
  function KeyName(key: string): string
  {
    if key == "SPACE" then "space"
    else if key == "BKSP" then "backspace"
    else Lower(key)
  }

  datatype Timer = ClickTimer | RightClickTimer | ScrollTimer | ToggleTimer | KeyPressTimer

  /** The controller's state; `events` is the log of issued actions. */
  datatype CtrlState = CtrlState(
    screenW: int,
    screenH: int,
    smoothing: real,
    cooldown: real,
    prevX: real,
    prevY: real,
    lastClick: real,
    lastRightClick: real,
    lastScroll: real,
    lastToggle: real,
    lastKeyPress: real,
    dragging: bool,
    pinchStart: real,
    paused: bool,
    events: seq<Event>)
  {
    function TimerValue(t: Timer): real
    {
      match t
      case ClickTimer => lastClick
      case RightClickTimer => lastRightClick
      case ScrollTimer => lastScroll
      case ToggleTimer => lastToggle
      case KeyPressTimer => lastKeyPress
    }

    /** The smoothed position after one step towards the target. */
    function Smoothed(tx: real, ty: real): CtrlState
    {
      this.(prevX := Ema(prevX, tx, smoothing), prevY := Ema(prevY, ty, smoothing))
    }

    /** Map, smooth and move the cursor, unless paused. */
    function MoveCursor(fx: int, fy: int, frameW: int, frameH: int): CtrlState
      requires frameW > 0 && frameH > 0
    {
      if paused then this
      else
        var target := MapCoordinates(fx as real, fy as real, frameW as real, frameH as real,
                                     screenW as real, screenH as real, DEFAULT_MARGIN);
        var s := Smoothed(target.0, target.1);
        s.(events := events + [Moved(Trunc(s.prevX), Trunc(s.prevY))])
    }

    /** Left click if the click cooldown has passed; answers whether it fired. */
    function LeftClick(now: real): (CtrlState, bool)
    {
      if now - lastClick > cooldown then (this.(lastClick := now, events := events + [Clicked]), true)
      else (this, false)
    }

    function RightClick(now: real): (CtrlState, bool)
    {
      if now - lastRightClick > cooldown then (this.(lastRightClick := now, events := events + [RightClicked]), true)
      else (this, false)
    }

    function StartDrag(): CtrlState
    {
      if !dragging then this.(events := events + [MouseDown], dragging := true) else this
    }

    function StopDrag(): CtrlState
    {
      if dragging then this.(events := events + [MouseUp], dragging := false) else this
    }

    /** Scroll (if the short scroll interval has passed); the timer restarts even for zero clicks. */
    function Scroll(delta: real, now: real): CtrlState
    {
      if now - lastScroll > SCROLL_INTERVAL then
        var amount := ScrollAmount(delta);
        this.(events := if amount != 0 then events + [Scrolled(amount)] else events, lastScroll := now)
      else this
    }

    function PressKey(key: string, now: real): (CtrlState, bool)
    {
      if now - lastKeyPress > KEY_PRESS_COOLDOWN then
        (this.(events := events + [Pressed(KeyName(key))], lastKeyPress := now), true)
      else (this, false)
    }

    function CanToggle(now: real): (CtrlState, bool)
    {
      if now - lastToggle > TOGGLE_COOLDOWN then (this.(lastToggle := now), true) else (this, false)
    }
  }

  class MouseKeyboardController {
    const screenW: int
    const screenH: int
    const smoothing: real
    const cooldown: real
    var prevX: real
    var prevY: real
    var lastClickTime: real
    var lastRightClickTime: real
    var lastScrollTime: real
    var lastToggleTime: real
    var lastKeyPressTime: real
    var isDragging: bool
    var pinchStartTime: real
    var paused: bool
    var events: seq<Event>

    function Model(): CtrlState
      reads this
    {
      CtrlState(screenW, screenH, smoothing, cooldown, prevX, prevY,
        lastClickTime, lastRightClickTime, lastScrollTime, lastToggleTime, lastKeyPressTime,
        isDragging, pinchStartTime, paused, events)
    }

    /** The screen size is a parameter here; the cursor starts at the screen centre. */
    constructor (screenW: int, screenH: int, smoothingFactor: real, cooldownTime: real)
      ensures Model() == CtrlState(screenW, screenH, smoothingFactor, cooldownTime,
        screenW as real / 2.0, screenH as real / 2.0, 0.0, 0.0, 0.0, 0.0, 0.0, false, 0.0, false, [])
    {
      this.screenW, this.screenH := screenW, screenH;
      smoothing := smoothingFactor;
      prevX, prevY := screenW as real / 2.0, screenH as real / 2.0;
      cooldown := cooldownTime;
      lastClickTime, lastRightClickTime, lastScrollTime := 0.0, 0.0, 0.0;
      lastToggleTime, lastKeyPressTime := 0.0, 0.0;
      isDragging, pinchStartTime, paused := false, 0.0, false;
      events := [];
    }

    method SmoothPosition(targetX: real, targetY: real) returns (x: int, y: int)
      modifies this
      ensures Model() == old(Model()).Smoothed(targetX, targetY)
      ensures x == Trunc(prevX) && y == Trunc(prevY)
    {
      var smoothX := prevX + smoothing * (targetX - prevX);
      var smoothY := prevY + smoothing * (targetY - prevY);
      prevX, prevY := smoothX, smoothY;
      x, y := Trunc(smoothX), Trunc(smoothY);
    }

    method MoveCursor(fingerX: int, fingerY: int, frameW: int, frameH: int)
      requires frameW > 0 && frameH > 0
      modifies this
      ensures Model() == old(Model()).MoveCursor(fingerX, fingerY, frameW, frameH)
    {
      if paused {
        return;
      }
      var raw := MapCoordinates(fingerX as real, fingerY as real, frameW as real, frameH as real,
                                screenW as real, screenH as real, DEFAULT_MARGIN);
      var x, y := SmoothPosition(raw.0, raw.1);
      events := events + [Moved(x, y)];
    }

    method LeftClick(now: real) returns (fired: bool)
      modifies this
      ensures (Model(), fired) == old(Model()).LeftClick(now)
    {
      if now - lastClickTime > cooldown {
        events := events + [Clicked];
        lastClickTime := now;
        return true;
      }
      return false;
    }

    method RightClick(now: real) returns (fired: bool)
      modifies this
      ensures (Model(), fired) == old(Model()).RightClick(now)
    {
      if now - lastRightClickTime > cooldown {
        events := events + [RightClicked];
        lastRightClickTime := now;
        return true;
      }
      return false;
    }

    method StartDrag()
      modifies this
      ensures Model() == old(Model()).StartDrag()
    {
      if !isDragging {
        events := events + [MouseDown];
        isDragging := true;
      }
    }

    method StopDrag()
      modifies this
      ensures Model() == old(Model()).StopDrag()
    {
      if isDragging {
        events := events + [MouseUp];
        isDragging := false;
      }
    }

    method Scroll(deltaY: real, now: real)
      modifies this
      ensures Model() == old(Model()).Scroll(deltaY, now)
    {
      if now - lastScrollTime > SCROLL_INTERVAL {
        var amount := Trunc(-deltaY / SCROLL_DIVISOR);
        if amount != 0 {
          events := events + [Scrolled(amount)];
        }
        lastScrollTime := now;
      }
    }

    method PressKey(key: string, now: real) returns (fired: bool)
      modifies this
      ensures (Model(), fired) == old(Model()).PressKey(key, now)
    {
      if now - lastKeyPressTime > KEY_PRESS_COOLDOWN {
        events := events + [Pressed(KeyName(key))];
        lastKeyPressTime := now;
        return true;
      }
      return false;
    }

    method CanToggle(now: real) returns (ok: bool)
      modifies this
      ensures (Model(), ok) == old(Model()).CanToggle(now)
    {
      if now - lastToggleTime > TOGGLE_COOLDOWN {
        lastToggleTime := now;
        return true;
      }
      return false;
    }
  }

  // ---------------------------------------------------------------
  // Properties of the coordinate map and the smoothing filter
  // ---------------------------------------------------------------

  lemma ClipBounds(v: real, lo: real, hi: real)
    requires lo <= hi
    ensures lo <= Clip(v, lo, hi) <= hi
  {
  }

  lemma MapAxisBounds(f: real, frame: real, screen: real, margin: real)
    requires frame > 0.0 && 0.0 <= margin < 0.5 && screen >= 0.0
    ensures 0.0 <= MapAxis(f, frame, screen, margin) <= screen
  {
    var lo, hi := frame * margin, frame * (1.0 - margin);
    assert hi - lo == frame * (1.0 - 2.0 * margin);
    PositiveProduct(frame, 1.0 - 2.0 * margin);
    ClipBounds(f, lo, hi);
    ScaleWithin(Clip(f, lo, hi) - lo, hi - lo, screen);
  }

  /** The map always lands on the screen, whatever the finger position. */
  lemma MapInScreen(fx: real, fy: real, frameW: real, frameH: real, screenW: real, screenH: real, margin: real)
    requires frameW > 0.0 && frameH > 0.0 && 0.0 <= margin < 0.5
    requires screenW >= 0.0 && screenH >= 0.0
    ensures var p := MapCoordinates(fx, fy, frameW, frameH, screenW, screenH, margin);
      0.0 <= p.0 <= screenW && 0.0 <= p.1 <= screenH
  {
    MapAxisBounds(fx, frameW, screenW, margin);
    MapAxisBounds(fy, frameH, screenH, margin);
  }

  /**
   * A finger at or beyond the active zone's low edge maps to 0, at or
   * beyond its high edge to the full screen extent, and the frame's centre
   * to the screen's centre.
   */
  lemma MapEdgesAndCentre(f: real, frame: real, screen: real, margin: real)
    requires frame > 0.0 && 0.0 <= margin < 0.5
    ensures f <= frame * margin ==> MapAxis(f, frame, screen, margin) == 0.0
    ensures f >= frame * (1.0 - margin) ==> MapAxis(f, frame, screen, margin) == screen
    ensures f == frame / 2.0 ==> MapAxis(f, frame, screen, margin) == screen / 2.0
  {
    var lo, hi := frame * margin, frame * (1.0 - margin);
    assert hi - lo == frame * (1.0 - 2.0 * margin);
    assert hi - lo > 0.0 by {
      assert 1.0 - 2.0 * margin > 0.0;
    }
    var w := hi - lo;
    if f <= lo {
      assert Clip(f, lo, hi) == lo;
      assert (lo - lo) * screen == 0.0;
    }
    if f >= hi {
      assert Clip(f, lo, hi) == hi;
      DivCancel(screen, w);
    }
    if f == frame / 2.0 {
      assert lo <= f <= hi;
      assert f - lo == w / 2.0;
      assert (w / 2.0) * screen == (screen / 2.0) * w;
      DivCancel(screen / 2.0, w);
    }
  }

  /** With 0 <= alpha <= 1 the smoothed value lies between the previous value and the target; alpha 1 jumps to the target. */
  lemma EmaBetween(prev: real, target: real, alpha: real)
    requires 0.0 <= alpha <= 1.0
    ensures prev <= target ==> prev <= Ema(prev, target, alpha) <= target
    ensures target <= prev ==> target <= Ema(prev, target, alpha) <= prev
    ensures alpha == 1.0 ==> Ema(prev, target, alpha) == target
    ensures alpha == 0.0 ==> Ema(prev, target, alpha) == prev
  {
    var d := target - prev;
    if d >= 0.0 {
      NonNegativeProduct(1.0 - alpha, d);
      NonNegativeProduct(alpha, d);
    } else {
      NonNegativeProduct(1.0 - alpha, -d);
      NonNegativeProduct(alpha, -d);
    }
  }

  /** A paused controller neither moves the cursor nor updates its smoothing state. */
  lemma PausedMoveIsInert(s: CtrlState, fx: int, fy: int, frameW: int, frameH: int)
    requires frameW > 0 && frameH > 0 && s.paused
    ensures s.MoveCursor(fx, fy, frameW, frameH) == s
  {
  }

  /** An unpaused move appends exactly one cursor event and changes only the smoothing state and the log. */
  lemma MoveUpdatesSmoothing(s: CtrlState, fx: int, fy: int, frameW: int, frameH: int)
    requires frameW > 0 && frameH > 0 && !s.paused
    ensures var t := s.MoveCursor(fx, fy, frameW, frameH);
      var target := MapCoordinates(fx as real, fy as real, frameW as real, frameH as real,
                                   s.screenW as real, s.screenH as real, DEFAULT_MARGIN);
      && t.prevX == Ema(s.prevX, target.0, s.smoothing)
      && t.prevY == Ema(s.prevY, target.1, s.smoothing)
      && t.events == s.events + [Moved(Trunc(t.prevX), Trunc(t.prevY))]
      && t.(prevX := s.prevX, prevY := s.prevY, events := s.events) == s
  {
  }

  // ---------------------------------------------------------------
  // Properties of the timers, the drag flag and scrolling
  // ---------------------------------------------------------------

  /**
   * A left click fires iff strictly more than the cooldown has passed since
   * the last one; it then logs one click and restarts only its own timer,
   * and otherwise changes nothing.
   */
  lemma LeftClickCooldown(s: CtrlState, now: real)
    ensures s.LeftClick(now).1 <==> now - s.lastClick > s.cooldown
    ensures s.LeftClick(now).1 ==> s.LeftClick(now).0 == s.(lastClick := now, events := s.events + [Clicked])
    ensures !s.LeftClick(now).1 ==> s.LeftClick(now).0 == s
    ensures now - s.lastClick == s.cooldown ==> !s.LeftClick(now).1
  {
  }

  lemma RightClickCooldown(s: CtrlState, now: real)
    ensures s.RightClick(now).1 <==> now - s.lastRightClick > s.cooldown
    ensures s.RightClick(now).1 ==> s.RightClick(now).0 == s.(lastRightClick := now, events := s.events + [RightClicked])
    ensures !s.RightClick(now).1 ==> s.RightClick(now).0 == s
  {
  }

  /** A key press fires iff more than 0.5 s passed, and logs the OS key name for the key. */
  lemma PressKeyCooldown(s: CtrlState, key: string, now: real)
    ensures s.PressKey(key, now).1 <==> now - s.lastKeyPress > KEY_PRESS_COOLDOWN
    ensures s.PressKey(key, now).1 ==>
      s.PressKey(key, now).0 == s.(lastKeyPress := now, events := s.events + [Pressed(KeyName(key))])
    ensures !s.PressKey(key, now).1 ==> s.PressKey(key, now).0 == s
  {
  }

  /** SPACE and BKSP have their own names; every other key is sent lower-cased. */
  lemma KeyNames()
    ensures KeyName("SPACE") == "space" && KeyName("BKSP") == "backspace"
    ensures KeyName("Q") == "q" && KeyName("M") == "m"
    ensures forall c :: 'A' <= c <= 'Z' ==> KeyName([c]) == [(c as int + 32) as char]
  {
    assert Lower("Q") == "q";
    assert Lower("M") == "m";
    forall c | 'A' <= c <= 'Z'
      ensures KeyName([c]) == [(c as int + 32) as char]
    {
      assert [c] != "SPACE" && [c] != "BKSP";
      assert Lower([c]) == [LowerChar(c)];
    }
  }

  /** The toggle gate opens iff more than 0.8 s passed, and records the time only then. */
  lemma ToggleCooldown(s: CtrlState, now: real)
    ensures s.CanToggle(now).1 <==> now - s.lastToggle > TOGGLE_COOLDOWN
    ensures s.CanToggle(now).0 == (if s.CanToggle(now).1 then s.(lastToggle := now) else s)
  {
  }

  /** Each timed action touches no timer but its own, so no action kind delays another. */
  lemma TimersAreIndependent(s: CtrlState, now: real, delta: real, key: string, t: Timer)
    ensures t != ClickTimer ==> s.LeftClick(now).0.TimerValue(t) == s.TimerValue(t)
    ensures t != RightClickTimer ==> s.RightClick(now).0.TimerValue(t) == s.TimerValue(t)
    ensures t != ScrollTimer ==> s.Scroll(delta, now).TimerValue(t) == s.TimerValue(t)
    ensures t != ToggleTimer ==> s.CanToggle(now).0.TimerValue(t) == s.TimerValue(t)
    ensures t != KeyPressTimer ==> s.PressKey(key, now).0.TimerValue(t) == s.TimerValue(t)
  {
  }

  /** Drag begins and ends idempotently: one MouseDown on false-to-true, one MouseUp on true-to-false. */
  lemma DragIsIdempotent(s: CtrlState)
    ensures s.StartDrag().dragging && !s.StopDrag().dragging
    ensures s.StartDrag().StartDrag() == s.StartDrag()
    ensures s.StopDrag().StopDrag() == s.StopDrag()
    ensures s.StartDrag().events == s.events + (if s.dragging then [] else [MouseDown])
    ensures s.StopDrag().events == s.events + (if s.dragging then [MouseUp] else [])
  {
  }

  /** The truncated amount is zero exactly for movements under five pixels. */
  lemma ScrollAmountZero(delta: real)
    ensures ScrollAmount(delta) == 0 <==> -SCROLL_DIVISOR < delta < SCROLL_DIVISOR
    ensures delta >= SCROLL_DIVISOR ==> ScrollAmount(delta) < 0
    ensures delta <= -SCROLL_DIVISOR ==> ScrollAmount(delta) > 0
  {
  }

  /**
   * After the 0.05 s interval a scroll logs `int(-delta / 5)` clicks if
   * nonzero and restarts the scroll timer even for zero; before it,
   * nothing changes.
   */
  lemma ScrollRule(s: CtrlState, delta: real, now: real)
    ensures now - s.lastScroll > SCROLL_INTERVAL ==>
      s.Scroll(delta, now) == s.(lastScroll := now,
        events := s.events + (if ScrollAmount(delta) != 0 then [Scrolled(ScrollAmount(delta))] else []))
    ensures now - s.lastScroll <= SCROLL_INTERVAL ==> s.Scroll(delta, now) == s
  {
  }
}
