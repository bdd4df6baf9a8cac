/**
 * The on-screen keyboard (virtual_keyboard.py): a fixed layout of key
 * rectangles, an inclusive hover hit-test and a press candidate that
 * survives for a short grace window after the fingertip slides off.
 * Drawing is not modelled.
 */
module Keyboard {
  import opened Optional

  /** A key box in camera pixels; both corners belong to the key. */
  datatype KeyRect = KeyRect(name: string, x1: int, y1: int, x2: int, y2: int)
  {
    predicate Contains(x: int, y: int)
    {
      x1 <= x <= x2 && y1 <= y <= y2
    }
  }

  /** Three letter rows, the third ending in backspace, then the space bar. */
  const ROWS: seq<seq<string>> := [
    ["Q", "W", "E", "R", "T", "Y", "U", "I", "O", "P"],
    ["A", "S", "D", "F", "G", "H", "J", "K", "L"],
    ["Z", "X", "C", "V", "B", "N", "M", "BKSP"],
    ["SPACE"]
  ]

  const KEY_W: int := 50
  const KEY_H: int := 50
  const PADDING: int := 5
  const BOTTOM_MARGIN: int := 20
  /** Backspace is wider than a letter key by this much. */
  const BKSP_EXTRA: int := 20
  /** Seconds for which the last hovered key stays a valid press target. */
  const PRESS_GRACE_PERIOD: real := 0.35

  /**
   * The rectangle of key c of row r for a frame of the given size.
   * Python's `//` by 2 is floor division, which is Dafny's `/` for a
   * positive divisor.
   */
  function KeyRectAt(frameW: int, frameH: int, r: nat, c: nat): KeyRect
    requires r < |ROWS| && c < |ROWS[r]|
  {
    var kbHeight := |ROWS| * (KEY_H + PADDING) + PADDING;
    var y1 := frameH - kbHeight - BOTTOM_MARGIN + r * (KEY_H + PADDING);
    if ROWS[r] == ["SPACE"] then
      var rowWidth := |ROWS[0]| * (KEY_W + PADDING);
      var x1 := (frameW - rowWidth) / 2;
      KeyRect("SPACE", x1, y1, x1 + rowWidth, y1 + KEY_H)
    else
      var rowWidth := |ROWS[r]| * (KEY_W + PADDING) - PADDING;
      var x1 := (frameW - rowWidth) / 2 + c * (KEY_W + PADDING);
      var key := ROWS[r][c];
      KeyRect(key, x1, y1, x1 + (if key == "BKSP" then KEY_W + BKSP_EXTRA else KEY_W), y1 + KEY_H)
  }

  function RowRects(frameW: int, frameH: int, r: nat): (rects: seq<KeyRect>)
    requires r < |ROWS|
    ensures |rects| == |ROWS[r]|
  {
    seq(|ROWS[r]|, c requires 0 <= c < |ROWS[r]| => KeyRectAt(frameW, frameH, r, c))
  }

  /** Only the last row is the space bar. */
  lemma SpaceRowIsLast(r: nat)
    requires r < |ROWS|
    ensures ROWS[r] == ["SPACE"] <==> r == 3
  {
    if r < 3 {
      assert |ROWS[r]| > 1;
    }
  }

  lemma RowRectsPrefix(frameW: int, frameH: int, r: nat, c: nat)
    requires r < |ROWS| && c < |ROWS[r]|
    ensures RowRects(frameW, frameH, r)[..c + 1] == RowRects(frameW, frameH, r)[..c] + [KeyRectAt(frameW, frameH, r, c)]
  {
  }

  /** The rectangles of the first n rows, in row order. */
  function LayoutRows(frameW: int, frameH: int, n: nat): (rects: seq<KeyRect>)
    requires n <= |ROWS|
    ensures |rects| == RowStart(n)
  {
    if n == 0 then [] else LayoutRows(frameW, frameH, n - 1) + RowRects(frameW, frameH, n - 1)
  }

  /** The whole layout for a frame of the given size. */
  function Layout(frameW: int, frameH: int): (rects: seq<KeyRect>)
    ensures |rects| == 28
  {
    LayoutRows(frameW, frameH, |ROWS|)
  }

  /** The index in the layout of the first key of row r (the row lengths are 10, 9, 8 and 1). */
  function RowStart(r: nat): nat
    requires r <= |ROWS|
  {
    [0, 10, 19, 27, 28][r]
  }

  /** The row of layout index i. */
  function RowOf(i: nat): (r: nat)
    requires i < 28
    ensures r < |ROWS| && RowStart(r) <= i < RowStart(r) + |ROWS[r]|
  {
    if i < 10 then 0 else if i < 19 then 1 else if i < 27 then 2 else 3
  }

  /** Index of the first rectangle containing the point, or |rects| when none does. */
  function FirstHitIndex(rects: seq<KeyRect>, x: int, y: int): (k: nat)
    ensures k <= |rects|
    ensures k < |rects| ==> rects[k].Contains(x, y)
    ensures forall j :: 0 <= j < k ==> !rects[j].Contains(x, y)
  {
    if rects == [] then 0
    else if rects[0].Contains(x, y) then 0
    else 1 + FirstHitIndex(rects[1..], x, y)
  }

  /** Label of the first rectangle containing the point (a linear scan). */
  function FirstHit(rects: seq<KeyRect>, x: int, y: int): Option<string>
  {
    var k := FirstHitIndex(rects, x, y);
    if k < |rects| then Some(rects[k].name) else None
  }

  /** The keyboard's state: visibility, this frame's hovered key, the cached press candidate, the layout. */
  datatype KbState = KbState(
    visible: bool,
    hovered: Option<string>,
    candidate: Option<string>,
    candidateTime: real,
    rects: seq<KeyRect>)
  {
    /** Show or hide; forgets the hovered key and the candidate (not its time). */
    function Toggle(): KbState
    {
      this.(visible := !visible, hovered := None, candidate := None)
    }

    /** What a hover call returns. */
    function HoverLabel(x: int, y: int): Option<string>
    {
      if !visible then None else FirstHit(rects, x, y)
    }

    /** The state after a hover call at time `now`. */
    function Hover(x: int, y: int, now: real): KbState
    {
      if !visible then this
      else
        var hit := FirstHit(rects, x, y);
        if hit.Some? then this.(hovered := hit, candidate := hit, candidateTime := now)
        else this.(hovered := None)
    }

    /** The key a pinch at time `now` should type. */
    function PressCandidate(now: real): Option<string>
    {
      if Truthy(hovered) then hovered
      else if Truthy(candidate) && now - candidateTime < PRESS_GRACE_PERIOD then candidate
      else None
    }
  }

  class VirtualKeyboard {
    var visible: bool
    var hoveredKey: Option<string>
    var pressCandidate: Option<string>
    var pressCandidateTime: real
    var keyRects: seq<KeyRect>

    function Model(): KbState
      reads this
    {
      KbState(visible, hoveredKey, pressCandidate, pressCandidateTime, keyRects)
    }

    constructor ()
      ensures Model() == KbState(false, None, None, 0.0, [])
    {
      visible := false;
      hoveredKey := None;
      pressCandidate := None;
      pressCandidateTime := 0.0;
      keyRects := [];
    }

    /** Rebuilds the key rectangles row by row, key by key. */
    method ComputeLayout(frameW: int, frameH: int)
      modifies this
      ensures Model() == old(Model()).(rects := Layout(frameW, frameH))
    {
      keyRects := [];
      var kbHeight := |ROWS| * (KEY_H + PADDING) + PADDING;
      var startY := frameH - kbHeight - BOTTOM_MARGIN;
      for r := 0 to |ROWS|
        invariant keyRects == LayoutRows(frameW, frameH, r)
        invariant visible == old(visible) && hoveredKey == old(hoveredKey)
        invariant pressCandidate == old(pressCandidate) && pressCandidateTime == old(pressCandidateTime)
      {
        SpaceRowIsLast(r);
        var row := ROWS[r];
        var y1 := startY + r * (KEY_H + PADDING);
        var y2 := y1 + KEY_H;
        if row == ["SPACE"] {
          var rowWidth := |ROWS[0]| * (KEY_W + PADDING);
          var x1 := (frameW - rowWidth) / 2;
          keyRects := keyRects + [KeyRect("SPACE", x1, y1, x1 + rowWidth, y2)];
          assert [KeyRect("SPACE", x1, y1, x1 + rowWidth, y2)] == RowRects(frameW, frameH, r);
        } else {
          var rowWidth := |row| * (KEY_W + PADDING) - PADDING;
          var rowStartX := (frameW - rowWidth) / 2;
          for c := 0 to |row|
            invariant keyRects == LayoutRows(frameW, frameH, r) + RowRects(frameW, frameH, r)[..c]
            invariant visible == old(visible) && hoveredKey == old(hoveredKey)
            invariant pressCandidate == old(pressCandidate) && pressCandidateTime == old(pressCandidateTime)
          {
            var key := row[c];
            var x1 := rowStartX + c * (KEY_W + PADDING);
            var x2 := x1 + (if key == "BKSP" then KEY_W + BKSP_EXTRA else KEY_W);
            assert KeyRect(key, x1, y1, x2, y2) == KeyRectAt(frameW, frameH, r, c);
            keyRects := keyRects + [KeyRect(key, x1, y1, x2, y2)];
            RowRectsPrefix(frameW, frameH, r, c);
          }
          assert RowRects(frameW, frameH, r)[..|row|] == RowRects(frameW, frameH, r);
        }
      }
    }

    method Toggle()
      modifies this
      ensures Model() == old(Model()).Toggle()
    {
      visible := !visible;
      hoveredKey := None;
      pressCandidate := None;
    }

    /** Scans the rectangles for the first that contains the fingertip. */
    method GetHoveredKey(x: int, y: int, now: real) returns (hit: Option<string>)
      modifies this
      ensures hit == old(Model()).HoverLabel(x, y)
      ensures Model() == old(Model()).Hover(x, y, now)
    {
      if !visible {
        return None;
      }
      hoveredKey := None;
      for i := 0 to |keyRects|
        invariant hoveredKey == None
        invariant visible == old(visible) && keyRects == old(keyRects)
        invariant pressCandidate == old(pressCandidate) && pressCandidateTime == old(pressCandidateTime)
        invariant forall j :: 0 <= j < i ==> !keyRects[j].Contains(x, y)
      {
        var rect := keyRects[i];
        if rect.x1 <= x <= rect.x2 && rect.y1 <= y <= rect.y2 {
          hoveredKey := Some(rect.name);
          pressCandidate := Some(rect.name);
          pressCandidateTime := now;
          return Some(rect.name);
        }
      }
      return None;
    }
  }

  // ---------------------------------------------------------------
  // Properties of the layout
  // ---------------------------------------------------------------

  /** Every layout index i holds the key of its row, at its column. */
  lemma LayoutAt(frameW: int, frameH: int, i: nat)
    requires i < 28
    ensures |Layout(frameW, frameH)| == 28
    ensures Layout(frameW, frameH)[i] == KeyRectAt(frameW, frameH, RowOf(i), i - RowStart(RowOf(i)))
  {
    var l := Layout(frameW, frameH);
    var r0, r1, r2, r3 := RowRects(frameW, frameH, 0), RowRects(frameW, frameH, 1),
      RowRects(frameW, frameH, 2), RowRects(frameW, frameH, 3);
    assert LayoutRows(frameW, frameH, 1) == r0;
    assert LayoutRows(frameW, frameH, 2) == r0 + r1;
    assert LayoutRows(frameW, frameH, 3) == r0 + r1 + r2;
    assert l == r0 + r1 + r2 + r3;
    if i < 10 {
      assert l[i] == r0[i];
    } else if i < 19 {
      assert l[i] == r1[i - 10];
    } else if i < 27 {
      assert l[i] == r2[i - 19];
    } else {
      assert l[i] == r3[0];
    }
  }

  /** The layout is exactly 28 keys: Q..P, A..L, Z..M, BKSP, SPACE, in row order. */
  lemma LayoutLabels(frameW: int, frameH: int)
    ensures |Layout(frameW, frameH)| == 28
    ensures forall i :: 0 <= i < 28 ==> Layout(frameW, frameH)[i].name == (ROWS[0] + ROWS[1] + ROWS[2] + ROWS[3])[i]
  {
    forall i | 0 <= i < 28
      ensures Layout(frameW, frameH)[i].name == (ROWS[0] + ROWS[1] + ROWS[2] + ROWS[3])[i]
    {
      LayoutAt(frameW, frameH, i);
    }
  }

  /**
   * Every key is 50 high and row r starts 245 - 55r above the frame's
   * bottom edge (keyboard height 4 * 55 + 5, margin 20).
   */
  lemma LayoutRowGeometry(frameW: int, frameH: int, i: nat)
    requires i < 28
    ensures Layout(frameW, frameH)[i].y1 == frameH - 245 + 55 * RowOf(i)
    ensures Layout(frameW, frameH)[i].y2 == Layout(frameW, frameH)[i].y1 + 50
  {
    LayoutAt(frameW, frameH, i);
  }

  /**
   * Widths: 50 for a letter, 70 for BKSP (index 26, last of its row),
   * 550 for SPACE (index 27); within a letter row consecutive keys'
   * left edges are 55 apart.
   */
  lemma LayoutWidths(frameW: int, frameH: int, i: nat)
    requires i < 28
    ensures var k := Layout(frameW, frameH)[i];
      k.x2 - k.x1 == (if i == 26 then 70 else if i == 27 then 550 else 50)
    ensures i < 27 && RowOf(i + 1) == RowOf(i) ==>
      Layout(frameW, frameH)[i + 1].x1 == Layout(frameW, frameH)[i].x1 + 55
  {
    LayoutAt(frameW, frameH, i);
    if i < 27 {
      LayoutAt(frameW, frameH, i + 1);
    }
  }

  /**
   * The space bar and the first two rows are centred: their left and
   * right gaps differ by at most one pixel. The third row is centred
   * without BKSP's extra 20 pixels, so its right gap is 19 or 20 pixels
   * smaller than its left gap.
   */
  lemma LayoutCentred(frameW: int, frameH: int)
    ensures var l := Layout(frameW, frameH);
      && (frameW - l[27].x2) - l[27].x1 in {0, 1}
      && (frameW - l[9].x2) - l[0].x1 in {0, 1}
      && (frameW - l[18].x2) - l[10].x1 in {0, 1}
      && (frameW - l[26].x2) - l[19].x1 in {-20, -19}
  {
    LayoutAt(frameW, frameH, 27);
    LayoutAt(frameW, frameH, 9);
    LayoutAt(frameW, frameH, 0);
    LayoutAt(frameW, frameH, 18);
    LayoutAt(frameW, frameH, 10);
    LayoutAt(frameW, frameH, 26);
    LayoutAt(frameW, frameH, 19);
  }

  predicate Disjoint(a: KeyRect, b: KeyRect)
  {
    a.x2 < b.x1 || b.x2 < a.x1 || a.y2 < b.y1 || b.y2 < a.y1
  }

  /** Backspace is the last key of the third row and appears nowhere else. */
  lemma BackspaceIsLast(r: nat, c: nat)
    requires r < |ROWS| && c < |ROWS[r]|
    ensures ROWS[r][c] == "BKSP" <==> r == 2 && c == 7
  {
    if r == 0 {
      assert ROWS[0][c] in {"Q", "W", "E", "R", "T", "Y", "U", "I", "O", "P"};
    } else if r == 1 {
      assert ROWS[1][c] in {"A", "S", "D", "F", "G", "H", "J", "K", "L"};
    } else if r == 2 {
      assert c < 7 ==> ROWS[2][c] in {"Z", "X", "C", "V", "B", "N", "M"};
    }
  }

  /** Two keys of the same row, or of an earlier and a later row, share no point. */
  lemma KeysDisjoint(frameW: int, frameH: int, r: nat, c: nat, r': nat, c': nat)
    requires r < |ROWS| && c < |ROWS[r]| && r' < |ROWS| && c' < |ROWS[r']|
    requires r < r' || (r == r' && c < c')
    ensures Disjoint(KeyRectAt(frameW, frameH, r, c), KeyRectAt(frameW, frameH, r', c'))
  {
    BackspaceIsLast(r, c);
  }

  /** No two keys share a point, even counting their borders. */
  lemma LayoutDisjoint(frameW: int, frameH: int)
    ensures forall i, j :: 0 <= i < j < |Layout(frameW, frameH)| ==>
      Disjoint(Layout(frameW, frameH)[i], Layout(frameW, frameH)[j])
  {
    var l := Layout(frameW, frameH);
    LayoutAt(frameW, frameH, 0);
    forall i, j | 0 <= i < j < |l|
      ensures Disjoint(l[i], l[j])
    {
      LayoutAt(frameW, frameH, i);
      LayoutAt(frameW, frameH, j);
      KeysDisjoint(frameW, frameH, RowOf(i), i - RowStart(RowOf(i)), RowOf(j), j - RowStart(RowOf(j)));
    }
  }

  /** On the layout, the hover scan finds a key exactly when the point lies in it. */
  lemma HoverFindsContainingKey(frameW: int, frameH: int, k: nat, x: int, y: int)
    requires k < |Layout(frameW, frameH)|
    requires Layout(frameW, frameH)[k].Contains(x, y)
    ensures FirstHit(Layout(frameW, frameH), x, y) == Some(Layout(frameW, frameH)[k].name)
  {
    var l := Layout(frameW, frameH);
    LayoutDisjoint(frameW, frameH);
    var h := FirstHitIndex(l, x, y);
  }

  // ---------------------------------------------------------------
  // Properties of hover, press candidate and toggle
  // ---------------------------------------------------------------

  /** A hidden keyboard answers no key and changes nothing. */
  lemma HiddenHoverIsInert(s: KbState, x: int, y: int, now: real)
    requires !s.visible
    ensures s.HoverLabel(x, y) == None && s.Hover(x, y, now) == s
  {
  }

  /**
   * A visible keyboard resets the hovered key, then on the first rectangle
   * containing the point sets hovered and candidate to its label and the
   * candidate time to now; with no match the candidate and its time stay.
   */
  lemma VisibleHover(s: KbState, x: int, y: int, now: real)
    requires s.visible
    ensures var t := s.Hover(x, y, now);
      var k := FirstHitIndex(s.rects, x, y);
      && t.visible && t.rects == s.rects
      && t.hovered == s.HoverLabel(x, y)
      && (k < |s.rects| ==>
            s.HoverLabel(x, y) == Some(s.rects[k].name) && s.rects[k].Contains(x, y)
            && t.candidate == t.hovered && t.candidateTime == now)
      && (k == |s.rects| ==>
            s.HoverLabel(x, y) == None
            && (forall j :: 0 <= j < |s.rects| ==> !s.rects[j].Contains(x, y))
            && t.candidate == s.candidate && t.candidateTime == s.candidateTime)
  {
  }

  /**
   * The press candidate is the hovered key if any; otherwise the cached
   * candidate while strictly younger than 0.35 s; otherwise none.
   */
  lemma PressCandidateRule(s: KbState, now: real)
    ensures Truthy(s.hovered) ==> s.PressCandidate(now) == s.hovered
    ensures !Truthy(s.hovered) ==>
      (Truthy(s.PressCandidate(now)) <==> Truthy(s.candidate) && now - s.candidateTime < PRESS_GRACE_PERIOD)
    ensures !Truthy(s.hovered) && Truthy(s.PressCandidate(now)) ==> s.PressCandidate(now) == s.candidate
  {
  }

  /**
   * Grace window: after a hover on a key at time t and a later frame that
   * misses every key, a pinch at t + 0.30 still gets that key and one at
   * t + 0.40 gets none.
   */
  lemma GraceWindow(s: KbState, x: int, y: int, t: real, x': int, y': int, t': real)
    requires s.visible
    requires Truthy(s.HoverLabel(x, y))
    requires s.Hover(x, y, t).HoverLabel(x', y') == None
    ensures var after := s.Hover(x, y, t).Hover(x', y', t');
      after.PressCandidate(t + 0.30) == s.HoverLabel(x, y) && after.PressCandidate(t + 0.40) == None
  {
  }

  /** Toggle flips visibility and clears the hovered key and the candidate; twice restores visibility. */
  lemma ToggleTwice(s: KbState)
    ensures s.Toggle().visible == !s.visible
    ensures s.Toggle().hovered == None && s.Toggle().candidate == None
    ensures s.Toggle().Toggle().visible == s.visible
    ensures s.Toggle().Toggle() == s.Toggle().(visible := s.visible)
  {
  }
}
