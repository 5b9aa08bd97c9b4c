/**
 * Properties of the frameless window controller: the priority order of the
 * hit zones, what a resize step does to each edge and to the size, and what
 * sequences of pointer events do to the controller.
 */
module FramelessLemmas {
  import opened Geometry
  import opened FramelessModel

  // ---------------------------------------------------------------------
  // Zone classification
  // ---------------------------------------------------------------------

  /** The result of FirstHit over the whole priority list, the tests written out. */
  lemma PriorityChain(g: Rect, p: Point)
    ensures FirstHit(Priority, 0, g, p) ==
      if NearLeft(g, p) && NearTop(g, p) then ResizeDirection.TopLeft
      else if NearRight(g, p) && NearTop(g, p) then ResizeDirection.TopRight
      else if NearRight(g, p) && NearBottom(g, p) then ResizeDirection.BottomRight
      else if NearLeft(g, p) && NearBottom(g, p) then ResizeDirection.BottomLeft
      else if NearLeft(g, p) then ResizeDirection.Left
      else if NearRight(g, p) then ResizeDirection.Right
      else if NearTop(g, p) then ResizeDirection.Top
      else if NearBottom(g, p) then ResizeDirection.Bottom
      else ResizeDirection.None
  {
  }

  /** The classifier returns the first zone, in priority order, whose test applies. */
  lemma ClassifierFollowsPriority(g: Rect, p: Point)
    ensures GetResizeDirection(g, p) == FirstHit(Priority, 0, g, p)
  {
  }

  /** FirstHit returns a zone whose test applies and before which no zone's test
      applies, or None when no zone's test applies. */
  lemma {:induction false} FirstHitIsFirst(ds: seq<ResizeDirection>, i: nat, g: Rect, p: Point)
    ensures var r := FirstHit(ds, i, g, p);
      (r.None? && forall j :: i <= j < |ds| ==> !Hits(ds[j], g, p)) ||
      (exists j :: i <= j < |ds| && r == ds[j] && Hits(r, g, p) && forall k :: i <= k < j ==> !Hits(ds[k], g, p))
    decreases |ds| - i
  {
    if i < |ds| && !Hits(ds[i], g, p) {
      FirstHitIsFirst(ds, i + 1, g, p);
    }
  }

  /** A corner zone is returned exactly when some corner's two edges are both near. */
  lemma CornersBeforeEdges(g: Rect, p: Point)
    ensures IsCorner(GetResizeDirection(g, p)) <==>
      exists d :: IsCorner(d) && Hits(d, g, p)
  {
  }

  /** Near exactly one edge: that edge's zone. */
  lemma SingleEdgeZones(g: Rect, p: Point)
    ensures NearLeft(g, p) && !NearRight(g, p) && !NearTop(g, p) && !NearBottom(g, p) ==>
      GetResizeDirection(g, p) == ResizeDirection.Left
    ensures NearRight(g, p) && !NearLeft(g, p) && !NearTop(g, p) && !NearBottom(g, p) ==>
      GetResizeDirection(g, p) == ResizeDirection.Right
    ensures NearTop(g, p) && !NearLeft(g, p) && !NearRight(g, p) && !NearBottom(g, p) ==>
      GetResizeDirection(g, p) == ResizeDirection.Top
    ensures NearBottom(g, p) && !NearLeft(g, p) && !NearRight(g, p) && !NearTop(g, p) ==>
      GetResizeDirection(g, p) == ResizeDirection.Bottom
  {
  }

  /** Near two adjacent edges and no other: the corner between them. */
  lemma AdjacentEdgesGiveCorner(g: Rect, p: Point)
    ensures NearLeft(g, p) && NearTop(g, p) ==> GetResizeDirection(g, p) == ResizeDirection.TopLeft
    ensures NearRight(g, p) && NearTop(g, p) && !NearLeft(g, p) ==>
      GetResizeDirection(g, p) == ResizeDirection.TopRight
    ensures NearRight(g, p) && NearBottom(g, p) && !NearTop(g, p) ==>
      GetResizeDirection(g, p) == ResizeDirection.BottomRight
    ensures NearLeft(g, p) && NearBottom(g, p) && !NearRight(g, p) && !NearTop(g, p) ==>
      GetResizeDirection(g, p) == ResizeDirection.BottomLeft
  {
  }

  /** On a window so narrow that both side margins overlap, Left wins over Right,
      and on one so short that the top and bottom margins overlap, Top wins over Bottom. */
  lemma NarrowWindowPrefersLeftAndTop(g: Rect, p: Point)
    ensures NearLeft(g, p) && NearRight(g, p) && !NearTop(g, p) && !NearBottom(g, p) ==>
      GetResizeDirection(g, p) == ResizeDirection.Left
    ensures NearTop(g, p) && NearBottom(g, p) && !NearLeft(g, p) && !NearRight(g, p) ==>
      GetResizeDirection(g, p) == ResizeDirection.Top
  {
  }

  /** The margin is five pixels on both sides of each edge, inclusive: a point
      5 pixels inside or outside an edge is in that edge's zone, one 6 pixels
      away is not. */
  lemma MarginIsFivePixels(g: Rect, p: Point)
    ensures !NearTop(g, p) && !NearBottom(g, p) && (p.x == LeftOf(g) - 5 || p.x == LeftOf(g) + 5) ==>
      GetResizeDirection(g, p) == ResizeDirection.Left
    ensures !NearTop(g, p) && !NearBottom(g, p) && !NearRight(g, p) && (p.x == LeftOf(g) - 6 || p.x == LeftOf(g) + 6) ==>
      GetResizeDirection(g, p).None?
    ensures !NearTop(g, p) && !NearBottom(g, p) && !NearLeft(g, p) && (p.x == RightOf(g) - 5 || p.x == RightOf(g) + 5) ==>
      GetResizeDirection(g, p) == ResizeDirection.Right
    ensures !NearTop(g, p) && !NearBottom(g, p) && !NearLeft(g, p) && (p.x == RightOf(g) - 6 || p.x == RightOf(g) + 6) ==>
      GetResizeDirection(g, p).None?
    ensures !NearLeft(g, p) && !NearRight(g, p) && (p.y == TopOf(g) - 5 || p.y == TopOf(g) + 5) ==>
      GetResizeDirection(g, p) == ResizeDirection.Top
    ensures !NearLeft(g, p) && !NearRight(g, p) && !NearBottom(g, p) && (p.y == TopOf(g) - 6 || p.y == TopOf(g) + 6) ==>
      GetResizeDirection(g, p).None?
    ensures !NearLeft(g, p) && !NearRight(g, p) && !NearTop(g, p) && (p.y == BottomOf(g) - 5 || p.y == BottomOf(g) + 5) ==>
      GetResizeDirection(g, p) == ResizeDirection.Bottom
    ensures !NearLeft(g, p) && !NearRight(g, p) && !NearTop(g, p) && (p.y == BottomOf(g) - 6 || p.y == BottomOf(g) + 6) ==>
      GetResizeDirection(g, p).None?
  {
  }

  // ---------------------------------------------------------------------
  // Resize geometry
  // ---------------------------------------------------------------------

  /** Dragging the left edge (alone or as part of a corner): the right edge stays,
      and the width becomes the old width minus the pointer's x displacement,
      pinned to the minimum (tested first) or the maximum. */
  lemma LeftEdgeDrag(dir: ResizeDirection, off: Point, g: Rect, lim: SizeLimits)
    requires MovesLeft(dir)
    ensures var r := ResizedGeometry(dir, off, g, lim);
      && RightOf(r) == RightOf(g)
      && (Width(g) - off.x < lim.minWidth ==> Width(r) == lim.minWidth)
      && (lim.minWidth <= Width(g) - off.x <= lim.maxWidth ==>
            LeftOf(r) == LeftOf(g) + off.x && Width(r) == Width(g) - off.x)
      && (lim.minWidth <= Width(g) - off.x && lim.maxWidth < Width(g) - off.x ==> Width(r) == lim.maxWidth)
  {
  }

  /** Dragging the top edge: as for the left edge, with heights. */
  lemma TopEdgeDrag(dir: ResizeDirection, off: Point, g: Rect, lim: SizeLimits)
    requires MovesTop(dir)
    ensures var r := ResizedGeometry(dir, off, g, lim);
      && BottomOf(r) == BottomOf(g)
      && (Height(g) - off.y < lim.minHeight ==> Height(r) == lim.minHeight)
      && (lim.minHeight <= Height(g) - off.y <= lim.maxHeight ==>
            TopOf(r) == TopOf(g) + off.y && Height(r) == Height(g) - off.y)
      && (lim.minHeight <= Height(g) - off.y && lim.maxHeight < Height(g) - off.y ==> Height(r) == lim.maxHeight)
  {
  }

  /** Dragging the right edge: the left edge stays.  The size test is made on
      right + dx - left, one less than the width it yields, so an unpinned
      step gives width + dx and a pinned one gives minimum + 1 or maximum + 1. */
  lemma RightEdgeDrag(dir: ResizeDirection, off: Point, g: Rect, lim: SizeLimits)
    requires MovesRight(dir)
    ensures var r := ResizedGeometry(dir, off, g, lim);
      && LeftOf(r) == LeftOf(g)
      && (Width(g) - 1 + off.x < lim.minWidth ==>
            RightOf(r) == LeftOf(g) + lim.minWidth && Width(r) == lim.minWidth + 1)
      && (lim.minWidth <= Width(g) - 1 + off.x <= lim.maxWidth ==>
            RightOf(r) == RightOf(g) + off.x && Width(r) == Width(g) + off.x)
      && (lim.minWidth <= Width(g) - 1 + off.x && lim.maxWidth < Width(g) - 1 + off.x ==>
            RightOf(r) == LeftOf(g) + lim.maxWidth && Width(r) == lim.maxWidth + 1)
  {
  }

  /** Dragging the bottom edge: as for the right edge, with heights. */
  lemma BottomEdgeDrag(dir: ResizeDirection, off: Point, g: Rect, lim: SizeLimits)
    requires MovesBottom(dir)
    ensures var r := ResizedGeometry(dir, off, g, lim);
      && TopOf(r) == TopOf(g)
      && (Height(g) - 1 + off.y < lim.minHeight ==>
            BottomOf(r) == TopOf(g) + lim.minHeight && Height(r) == lim.minHeight + 1)
      && (lim.minHeight <= Height(g) - 1 + off.y <= lim.maxHeight ==>
            BottomOf(r) == BottomOf(g) + off.y && Height(r) == Height(g) + off.y)
      && (lim.minHeight <= Height(g) - 1 + off.y && lim.maxHeight < Height(g) - 1 + off.y ==>
            BottomOf(r) == TopOf(g) + lim.maxHeight && Height(r) == lim.maxHeight + 1)
  {
  }

  predicate OrderedLimits(lim: SizeLimits)
  {
    lim.minWidth <= lim.maxWidth && lim.minHeight <= lim.maxHeight
  }

  /** With ordered limits, a dragged left or top edge leaves the size in
      [minimum, maximum], a dragged right or bottom edge in
      [minimum + 1, maximum + 1], and an axis the zone does not drag keeps its size. */
  lemma ResizedSizeBounds(dir: ResizeDirection, off: Point, g: Rect, lim: SizeLimits)
    requires OrderedLimits(lim)
    ensures var r := ResizedGeometry(dir, off, g, lim);
      && (MovesLeft(dir) ==> lim.minWidth <= Width(r) <= lim.maxWidth)
      && (MovesRight(dir) ==> lim.minWidth + 1 <= Width(r) <= lim.maxWidth + 1)
      && (!MovesHorizontally(dir) ==> Width(r) == Width(g))
      && (MovesTop(dir) ==> lim.minHeight <= Height(r) <= lim.maxHeight)
      && (MovesBottom(dir) ==> lim.minHeight + 1 <= Height(r) <= lim.maxHeight + 1)
      && (!MovesVertically(dir) ==> Height(r) == Height(g))
  {
  }

  /** With no zone latched a resize step changes nothing. */
  lemma NoZoneNoResize(off: Point, g: Rect, lim: SizeLimits)
    ensures ResizedGeometry(ResizeDirection.None, off, g, lim) == g
  {
  }

  /** The minimum is tested first.  With limits whose minimum exceeds the
      maximum no size is in range, so every step that drags an edge pins it:
      a near edge to exactly the minimum when the new size is below it and to
      the maximum otherwise, a far edge likewise one pixel wider. */
  lemma MinimumTestedFirst(dir: ResizeDirection, off: Point, g: Rect, lim: SizeLimits)
    requires lim.maxWidth < lim.minWidth && lim.maxHeight < lim.minHeight
    ensures var r := ResizedGeometry(dir, off, g, lim);
      && (MovesLeft(dir) ==>
            (Width(g) - off.x < lim.minWidth ==> Width(r) == lim.minWidth)
            && (lim.minWidth <= Width(g) - off.x ==> Width(r) == lim.maxWidth))
      && (MovesRight(dir) ==>
            (Width(g) - 1 + off.x < lim.minWidth ==> Width(r) == lim.minWidth + 1)
            && (lim.minWidth <= Width(g) - 1 + off.x ==> Width(r) == lim.maxWidth + 1))
      && (MovesTop(dir) ==>
            (Height(g) - off.y < lim.minHeight ==> Height(r) == lim.minHeight)
            && (lim.minHeight <= Height(g) - off.y ==> Height(r) == lim.maxHeight))
      && (MovesBottom(dir) ==>
            (Height(g) - 1 + off.y < lim.minHeight ==> Height(r) == lim.minHeight + 1)
            && (lim.minHeight <= Height(g) - 1 + off.y ==> Height(r) == lim.maxHeight + 1))
  {
  }

  /** A 200 x 150 window at (100, 100), dragged by its bottom-right corner by
      (10, -5) under limits 50..1000, becomes 210 x 145 at the same place. */
  lemma BottomRightScenario()
    ensures var g := Rect(100, 100, 299, 249);
      var r := ResizedGeometry(ResizeDirection.BottomRight, Point(10, -5), g, SizeLimits(50, 1000, 50, 1000));
      Width(g) == 200 && Height(g) == 150 &&
      r == Rect(100, 100, 309, 244) && Width(r) == 210 && Height(r) == 145
  {
  }

  /** The same window, its left edge dragged right by 190 with a minimum width
      of 50: the left edge is pinned at 300 - 50 = 250. */
  lemma LeftEdgeMinimumScenario()
    ensures var r := ResizedGeometry(ResizeDirection.Left, Point(190, 0), Rect(100, 100, 299, 249),
                                     SizeLimits(50, 1000, 50, 1000));
      LeftOf(r) == 250 && Width(r) == 50 && RightOf(r) == 299
  {
    LeftEdgeDrag(ResizeDirection.Left, Point(190, 0), Rect(100, 100, 299, 249), SizeLimits(50, 1000, 50, 1000));
  }

  /** Dragging the right edge far out pins it at left + maximum, one pixel wider
      than the maximum, while the left edge, pinned the same way, gives exactly the maximum. */
  lemma RightEdgeOvershootsMaximum()
    ensures var g := Rect(100, 100, 299, 249);
      var lim := SizeLimits(50, 1000, 50, 1000);
      Width(ResizedGeometry(ResizeDirection.Right, Point(900, 0), g, lim)) == 1001 &&
      Width(ResizedGeometry(ResizeDirection.Left, Point(-900, 0), g, lim)) == 1000
  {
    var g := Rect(100, 100, 299, 249);
    var lim := SizeLimits(50, 1000, 50, 1000);
    RightEdgeDrag(ResizeDirection.Right, Point(900, 0), g, lim);
    LeftEdgeDrag(ResizeDirection.Left, Point(-900, 0), g, lim);
  }

  // ---------------------------------------------------------------------
  // Event sequences
  // ---------------------------------------------------------------------

  /** Running evs and then e is running e after evs. */
  lemma {:induction false} RunThenStep(c: Controller, evs: seq<Event>, e: Event, lim: SizeLimits)
    ensures Run(c, evs + [e], lim) == Step(Run(c, evs, lim), e, lim)
    decreases |evs|
  {
    if evs == [] {
      assert [] + [e] == [e];
      assert [e][1..] == [];
    } else {
      assert (evs + [e])[1..] == evs[1..] + [e];
      RunThenStep(Step(c, evs[0], lim), evs[1..], e, lim);
    }
  }

  /** Whatever happened before, a release leaves no gesture behind. */
  lemma ReleaseEndsGesture(c: Controller, evs: seq<Event>, lim: SizeLimits)
    ensures var r := Run(c, evs + [MouseRelease], lim);
      !r.isMosPressed && r.curOpMode.None? && r.curResizeDirection.None?
      && r.geometry == Run(c, evs, lim).geometry
  {
    RunThenStep(c, evs, MouseRelease, lim);
  }

  /** Every event keeps "no operation outside a press". */
  lemma {:induction false} RunKeepsConsistent(c: Controller, evs: seq<Event>, lim: SizeLimits)
    requires Consistent(c)
    ensures Consistent(Run(c, evs, lim))
    decreases |evs|
  {
    if evs != [] {
      RunKeepsConsistent(Step(c, evs[0], lim), evs[1..], lim);
    }
  }

  /** From construction on, a mode other than None and a latched zone occur only while pressed. */
  lemma ReachableStatesConsistent(g: Rect, evs: seq<Event>, lim: SizeLimits)
    ensures var r := Run(InitialController(g), evs, lim);
      !r.isMosPressed ==> r.curOpMode.None? && r.curResizeDirection.None?
  {
    RunKeepsConsistent(InitialController(g), evs, lim);
  }

  /** Both dimensions lie in [minimum, maximum + 1]. */
  predicate SizeWithin(g: Rect, lim: SizeLimits)
  {
    lim.minWidth <= Width(g) <= lim.maxWidth + 1 && lim.minHeight <= Height(g) <= lim.maxHeight + 1
  }

  lemma StepKeepsSizeWithin(c: Controller, e: Event, lim: SizeLimits)
    requires OrderedLimits(lim) && SizeWithin(c.geometry, lim)
    ensures SizeWithin(Step(c, e, lim).geometry, lim)
  {
    if e.MouseMove? && c.isMosPressed && c.curOpMode.Resize? {
      ResizedSizeBounds(c.curResizeDirection, Sub(e.pos, c.prevMosPos), c.geometry, lim);
    }
  }

  /** Under fixed ordered limits, no sequence of events takes the window size out of
      [minimum, maximum + 1] once it is inside. */
  lemma {:induction false} RunKeepsSizeWithin(c: Controller, evs: seq<Event>, lim: SizeLimits)
    requires OrderedLimits(lim) && SizeWithin(c.geometry, lim)
    ensures SizeWithin(Run(c, evs, lim).geometry, lim)
    decreases |evs|
  {
    if evs != [] {
      StepKeepsSizeWithin(c, evs[0], lim);
      RunKeepsSizeWithin(Step(c, evs[0], lim), evs[1..], lim);
    }
  }

  function Last(ps: seq<Point>): Point
    requires ps != []
  {
    ps[|ps| - 1]
  }

  /** Moves keep the flags, the press, the mode and the latched zone; the last
      point becomes the previous pointer position. */
  lemma {:induction false} GestureLatched(c: Controller, ps: seq<Point>, lim: SizeLimits)
    ensures var r := Run(c, Moves(ps), lim);
      && r.isMosPressed == c.isMosPressed && r.isDragging == c.isDragging && r.isResized == c.isResized
      && r.curOpMode == c.curOpMode && r.curResizeDirection == c.curResizeDirection
      && (ps != [] ==> r.prevMosPos == Last(ps))
    decreases |ps|
  {
    if ps != [] {
      var c' := Step(c, MouseMove(ps[0]), lim);
      assert Run(c, Moves(ps), lim) == Run(c', Moves(ps[1..]), lim) by {
        assert Moves(ps)[0] == MouseMove(ps[0]);
        assert Moves(ps)[1..] == Moves(ps[1..]);
      }
      GestureLatched(c', ps[1..], lim);
      if |ps| > 1 {
        assert Last(ps[1..]) == Last(ps);
      }
    }
  }

  /** In a move gesture the window follows the pointer: after moves through ps
      it is translated by the last point minus the position before the first move. */
  lemma {:induction false} DragFollowsPointer(c: Controller, ps: seq<Point>, lim: SizeLimits)
    requires c.isMosPressed && c.curOpMode.Move? && ps != []
    ensures Run(c, Moves(ps), lim).geometry == Translated(c.geometry, Sub(Last(ps), c.prevMosPos))
    decreases |ps|
  {
    assert Moves(ps)[1..] == Moves(ps[1..]);
    var c' := Step(c, MouseMove(ps[0]), lim);
    if |ps| == 1 {
      assert Moves(ps[1..]) == [];
    } else {
      DragFollowsPointer(c', ps[1..], lim);
      assert Last(ps[1..]) == Last(ps);
    }
  }

  /** A left press at p0 with dragging on and no resize zone hit, followed by
      moves through ps, moves the window by the last point minus p0: the press
      position is the baseline of the first step. */
  lemma PressThenDrag(c: Controller, p0: Point, ps: seq<Point>, lim: SizeLimits)
    requires c.isDragging && (!c.isResized || GetResizeDirection(c.geometry, p0).None?)
    requires ps != []
    ensures Run(c, [MousePress(p0, LeftButton)] + Moves(ps), lim).geometry == Translated(c.geometry, Sub(Last(ps), p0))
  {
    var evs := [MousePress(p0, LeftButton)] + Moves(ps);
    assert evs[0] == MousePress(p0, LeftButton) && evs[1..] == Moves(ps);
    DragFollowsPointer(AfterPress(c, p0, LeftButton), ps, lim);
  }

  /** With no press held, moves never change the window; with resizing on the
      cursor shows the zone under the last point. */
  lemma {:induction false} HoverKeepsGeometry(c: Controller, ps: seq<Point>, lim: SizeLimits)
    requires !c.isMosPressed
    ensures var r := Run(c, Moves(ps), lim);
      && r.geometry == c.geometry
      && (c.isResized && ps != [] ==> r.cursor == CursorFor(GetResizeDirection(c.geometry, Last(ps))))
      && (!c.isResized ==> r.cursor == c.cursor)
    decreases |ps|
  {
    if ps != [] {
      assert Moves(ps)[1..] == Moves(ps[1..]);
      HoverKeepsGeometry(Step(c, MouseMove(ps[0]), lim), ps[1..], lim);
      if |ps| > 1 {
        assert Last(ps[1..]) == Last(ps);
      } else {
        assert Moves(ps[1..]) == [];
      }
    }
  }

  /** A left press at a top-left corner with both flags on latches a TopLeft
      resize, not a move. */
  lemma PressAtCornerLatchesResize(c: Controller)
    requires c.isResized && c.isDragging
    requires c.geometry == Rect(100, 100, 299, 249)
    ensures var r := Step(c, MousePress(Point(102, 97), LeftButton), SizeLimits(50, 1000, 50, 1000));
      r.isMosPressed && r.curOpMode.Resize? && r.curResizeDirection == ResizeDirection.TopLeft
  {
  }
}
