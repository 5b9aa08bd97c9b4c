/**
 * The logic of the frameless window controller as pure functions: the hit-zone
 * classifier, the cursor hint, the choice of operation at a press, the new
 * rectangle of a resize step, and one transition per input event over a
 * snapshot of the controller's fields.
 */
module FramelessModel {
  import opened Geometry

  /** The nine hit zones: none, or one of the eight compass zones. */
  datatype ResizeDirection = None | TopLeft | Top | TopRight | Right | BottomRight | Bottom | BottomLeft | Left

  /** What the current press-drag-release gesture does. */
  datatype OperationMode = None | Resize | Move

  /** The cursor shapes the controller hands to the window. */
  datatype CursorShape = ArrowCursor | SizeFDiagCursor | SizeBDiagCursor | SizeHorCursor | SizeVerCursor

  datatype MouseButton = LeftButton | RightButton | MiddleButton | OtherButton

  /** The window's minimum and maximum size, read when a resize step is computed. */
  datatype SizeLimits = SizeLimits(minWidth: int, maxWidth: int, minHeight: int, maxHeight: int)

  /** The hit margin, in pixels, around every edge. */
  const ResizeScaleLimit: int := 5

  function Abs(v: int): nat
  {
    if v < 0 then -v else v
  }

  // ---------------------------------------------------------------------
  // Zone classification
  // ---------------------------------------------------------------------

  predicate NearLeft(g: Rect, p: Point) { Abs(p.x - LeftOf(g)) <= ResizeScaleLimit }
  predicate NearRight(g: Rect, p: Point) { Abs(p.x - RightOf(g)) <= ResizeScaleLimit }
  predicate NearTop(g: Rect, p: Point) { Abs(p.y - TopOf(g)) <= ResizeScaleLimit }
  predicate NearBottom(g: Rect, p: Point) { Abs(p.y - BottomOf(g)) <= ResizeScaleLimit }

  /** The test that zone d applies at p: both of a corner's edges are near,
      or the one edge of an edge zone is near (whatever the other axis). */
  predicate Hits(d: ResizeDirection, g: Rect, p: Point)
  {
    match d
    case None => false
    case TopLeft => NearLeft(g, p) && NearTop(g, p)
    case TopRight => NearRight(g, p) && NearTop(g, p)
    case BottomRight => NearRight(g, p) && NearBottom(g, p)
    case BottomLeft => NearLeft(g, p) && NearBottom(g, p)
    case Left => NearLeft(g, p)
    case Right => NearRight(g, p)
    case Top => NearTop(g, p)
    case Bottom => NearBottom(g, p)
  }

  predicate IsCorner(d: ResizeDirection)
  {
    d.TopLeft? || d.TopRight? || d.BottomRight? || d.BottomLeft?
  }

  /** The order in which the zones are tried: corners first, then edges. */
  const Priority: seq<ResizeDirection> :=
    [ResizeDirection.TopLeft, ResizeDirection.TopRight, ResizeDirection.BottomRight, ResizeDirection.BottomLeft,
     ResizeDirection.Left, ResizeDirection.Right, ResizeDirection.Top, ResizeDirection.Bottom]

  /** The first zone of ds, from index i on, whose test applies, or None:
      a reference definition of the classifier's priority chain. */
  function FirstHit(ds: seq<ResizeDirection>, i: nat, g: Rect, p: Point): (r: ResizeDirection)
    ensures !r.None? ==> Hits(r, g, p)
    decreases |ds| - i
  {
    if i >= |ds| then ResizeDirection.None
    else if Hits(ds[i], g, p) then ds[i]
    else FirstHit(ds, i + 1, g, p)
  }

  /** The zone under the global point p for the window rectangle g. */
  function GetResizeDirection(g: Rect, p: Point): (r: ResizeDirection)
    ensures r.None? <==> !NearLeft(g, p) && !NearRight(g, p) && !NearTop(g, p) && !NearBottom(g, p)
    ensures !r.None? ==> Hits(r, g, p)
  {
    var xLeftOff := Abs(p.x - LeftOf(g));
    var yTopOff := Abs(p.y - TopOf(g));
    var xRightOff := Abs(p.x - RightOf(g));
    var yBottomOff := Abs(p.y - BottomOf(g));
    if xLeftOff <= ResizeScaleLimit && yTopOff <= ResizeScaleLimit then ResizeDirection.TopLeft
    else if xRightOff <= ResizeScaleLimit && yTopOff <= ResizeScaleLimit then ResizeDirection.TopRight
    else if xRightOff <= ResizeScaleLimit && yBottomOff <= ResizeScaleLimit then ResizeDirection.BottomRight
    else if xLeftOff <= ResizeScaleLimit && yBottomOff <= ResizeScaleLimit then ResizeDirection.BottomLeft
    else if xLeftOff <= ResizeScaleLimit then ResizeDirection.Left
    else if xRightOff <= ResizeScaleLimit then ResizeDirection.Right
    else if yTopOff <= ResizeScaleLimit then ResizeDirection.Top
    else if yBottomOff <= ResizeScaleLimit then ResizeDirection.Bottom
    else ResizeDirection.None
  }

  // ---------------------------------------------------------------------
  // Which edges a zone drags
  // ---------------------------------------------------------------------

  predicate MovesLeft(d: ResizeDirection) { d.TopLeft? || d.BottomLeft? || d.Left? }
  predicate MovesRight(d: ResizeDirection) { d.TopRight? || d.BottomRight? || d.Right? }
  predicate MovesTop(d: ResizeDirection) { d.TopLeft? || d.TopRight? || d.Top? }
  predicate MovesBottom(d: ResizeDirection) { d.BottomLeft? || d.BottomRight? || d.Bottom? }

  predicate MovesHorizontally(d: ResizeDirection) { MovesLeft(d) || MovesRight(d) }
  predicate MovesVertically(d: ResizeDirection) { MovesTop(d) || MovesBottom(d) }

  // ---------------------------------------------------------------------
  // Cursor hint
  // ---------------------------------------------------------------------

  /** The cursor shown over zone d: its arrows point along the edges the zone drags. */
  function CursorFor(d: ResizeDirection): (c: CursorShape)
    ensures c.ArrowCursor? <==> !MovesHorizontally(d) && !MovesVertically(d)
    ensures c.SizeHorCursor? <==> MovesHorizontally(d) && !MovesVertically(d)
    ensures c.SizeVerCursor? <==> MovesVertically(d) && !MovesHorizontally(d)
    ensures c.SizeFDiagCursor? <==> (MovesLeft(d) && MovesTop(d)) || (MovesRight(d) && MovesBottom(d))
    ensures c.SizeBDiagCursor? <==> (MovesRight(d) && MovesTop(d)) || (MovesLeft(d) && MovesBottom(d))
  {
    match d
    case TopLeft | BottomRight => SizeFDiagCursor
    case TopRight | BottomLeft => SizeBDiagCursor
    case Left | Right => SizeHorCursor
    case Top | Bottom => SizeVerCursor
    case None => ArrowCursor
  }

  // ---------------------------------------------------------------------
  // Resize geometry
  // ---------------------------------------------------------------------

  /** The size test of a resize step: the minimum is tried first, then the maximum. */
  function Clamp(v: int, lo: int, hi: int): (r: int)
    ensures v < lo ==> r == lo
    ensures lo <= v <= hi ==> r == v
    ensures lo <= v && hi < v ==> r == hi
    ensures lo <= hi ==> lo <= r <= hi
  {
    if v < lo then lo else if v > hi then hi else v
  }

  /**
   * The new position of a left (or top) edge dragged by d, when the opposite
   * inclusive edge `far` stays put: the edge follows the pointer unless the
   * span far - edge + 1 would leave [lo, hi], in which case the span is
   * pinned to lo (tested first) or hi.
   */
  function NearEdgeAfterDrag(near: int, far: int, d: int, lo: int, hi: int): (r: int)
    ensures far - (near + d) + 1 < lo ==> far - r + 1 == lo
    ensures lo <= far - (near + d) + 1 <= hi ==> r == near + d
    ensures lo <= far - (near + d) + 1 && hi < far - (near + d) + 1 ==> far - r + 1 == hi
  {
    far + 1 - Clamp(far + 1 - (near + d), lo, hi)
  }

  /**
   * The new position of an inclusive right (or bottom) edge dragged by d,
   * when the opposite edge `near` stays put.  The size test is made on
   * far + d - near, one less than the span, and a pinned edge lands at
   * near + lo or near + hi, so the span becomes lo + 1 or hi + 1.
   */
  function FarEdgeAfterDrag(near: int, far: int, d: int, lo: int, hi: int): (r: int)
    ensures far + d - near < lo ==> r == near + lo
    ensures lo <= far + d - near <= hi ==> r == far + d
    ensures lo <= far + d - near && hi < far + d - near ==> r == near + hi
  {
    near + Clamp(far + d - near, lo, hi)
  }

  /**
   * The window rectangle after one resize step in zone dir, for the pointer
   * displacement off since the previous event.  Each edge the zone drags
   * moves; every other edge keeps its place.
   */
  function ResizedGeometry(dir: ResizeDirection, off: Point, g: Rect, lim: SizeLimits): (r: Rect)
    ensures !MovesLeft(dir) ==> LeftOf(r) == LeftOf(g)
    ensures !MovesRight(dir) ==> RightOf(r) == RightOf(g)
    ensures !MovesTop(dir) ==> TopOf(r) == TopOf(g)
    ensures !MovesBottom(dir) ==> BottomOf(r) == BottomOf(g)
  {
    Rect(
      if MovesLeft(dir) then NearEdgeAfterDrag(g.x1, g.x2, off.x, lim.minWidth, lim.maxWidth) else g.x1,
      if MovesTop(dir) then NearEdgeAfterDrag(g.y1, g.y2, off.y, lim.minHeight, lim.maxHeight) else g.y1,
      if MovesRight(dir) then FarEdgeAfterDrag(g.x1, g.x2, off.x, lim.minWidth, lim.maxWidth) else g.x2,
      if MovesBottom(dir) then FarEdgeAfterDrag(g.y1, g.y2, off.y, lim.minHeight, lim.maxHeight) else g.y2)
  }

  // ---------------------------------------------------------------------
  // The controller's fields and its transitions
  // ---------------------------------------------------------------------

  /** A snapshot of the controller's fields, with the window rectangle and
      the cursor last set. */
  datatype Controller = Controller(
    isDragging: bool,
    isResized: bool,
    isMosPressed: bool,
    prevMosPos: Point,
    curOpMode: OperationMode,
    curResizeDirection: ResizeDirection,
    geometry: Rect,
    cursor: CursorShape)

  /** Outside a press there is no operation and no latched zone. */
  predicate Consistent(c: Controller)
  {
    !c.isMosPressed ==> c.curOpMode.None? && c.curResizeDirection.None?
  }

  /** A controller as constructed over the window rectangle g. */
  function InitialController(g: Rect): (c: Controller)
    ensures !c.isDragging && !c.isResized && !c.isMosPressed
    ensures c.curOpMode.None? && c.curResizeDirection.None? && c.geometry == g
    ensures Consistent(c)
  {
    Controller(false, false, false, Point(0, 0), OperationMode.None, ResizeDirection.None, g, ArrowCursor)
  }

  /**
   * The operation chosen at a left press at p.  Resizing takes priority over
   * moving; with resizing on and no zone hit the latched zone is cleared,
   * and if moving is off as well the mode is left as it was.
   */
  function AfterInitializeOperation(c: Controller, p: Point): (r: Controller)
    ensures r == c.(curOpMode := r.curOpMode, curResizeDirection := r.curResizeDirection)
    ensures !c.isResized && !c.isDragging ==> r.curOpMode.None? && r.curResizeDirection == c.curResizeDirection
    ensures c.isResized && !GetResizeDirection(c.geometry, p).None? ==>
      r.curOpMode.Resize? && r.curResizeDirection == GetResizeDirection(c.geometry, p)
    ensures c.isResized && GetResizeDirection(c.geometry, p).None? ==>
      r.curResizeDirection.None? && r.curOpMode == (if c.isDragging then OperationMode.Move else c.curOpMode)
    ensures !c.isResized && c.isDragging ==> r.curOpMode.Move? && r.curResizeDirection == c.curResizeDirection
    ensures r.curOpMode.Resize? && !c.curOpMode.Resize? ==> c.isResized && Hits(r.curResizeDirection, c.geometry, p)
  {
    if !c.isResized && !c.isDragging then c.(curOpMode := OperationMode.None)
    else
      var hit := if c.isResized then GetResizeDirection(c.geometry, p) else c.curResizeDirection;
      if c.isResized && !hit.None? then c.(curOpMode := Resize, curResizeDirection := hit)
      else if c.isDragging then c.(curOpMode := Move, curResizeDirection := hit)
      else c.(curResizeDirection := hit)
  }

  /** A press of button b at p: only the left button starts a gesture. */
  function AfterPress(c: Controller, p: Point, b: MouseButton): (r: Controller)
    ensures !b.LeftButton? ==> r == c
    ensures b.LeftButton? ==> r.isMosPressed && r.prevMosPos == p
    // A left press chooses the operation from the flags and the zone under p.
    ensures b.LeftButton? && !c.isResized && !c.isDragging ==>
      r.curOpMode.None? && r.curResizeDirection == c.curResizeDirection
    ensures b.LeftButton? && c.isResized && !GetResizeDirection(c.geometry, p).None? ==>
      r.curOpMode.Resize? && r.curResizeDirection == GetResizeDirection(c.geometry, p)
    ensures b.LeftButton? && c.isResized && GetResizeDirection(c.geometry, p).None? ==>
      r.curResizeDirection.None? && r.curOpMode == (if c.isDragging then OperationMode.Move else c.curOpMode)
    ensures b.LeftButton? && !c.isResized && c.isDragging ==>
      r.curOpMode.Move? && r.curResizeDirection == c.curResizeDirection
    ensures r.isDragging == c.isDragging && r.isResized == c.isResized
    ensures r.geometry == c.geometry && r.cursor == c.cursor
    ensures Consistent(c) ==> Consistent(r)
  {
    if b.LeftButton? then AfterInitializeOperation(c.(isMosPressed := true, prevMosPos := p), p)
    else c
  }

  /**
   * A pointer move to p.  While pressed, the active operation changes the
   * window; while not pressed, the cursor hint follows the zone under the
   * pointer if resizing is on.  The pointer position is recorded in every case.
   */
  function AfterMove(c: Controller, p: Point, lim: SizeLimits): (r: Controller)
    ensures r.prevMosPos == p
    ensures r.isDragging == c.isDragging && r.isResized == c.isResized && r.isMosPressed == c.isMosPressed
    ensures r.curOpMode == c.curOpMode && r.curResizeDirection == c.curResizeDirection
    ensures !c.isMosPressed ==> r.geometry == c.geometry
    ensures !c.isMosPressed && c.isResized ==> r.cursor == CursorFor(GetResizeDirection(c.geometry, p))
    ensures c.isMosPressed || !c.isResized ==> r.cursor == c.cursor
    ensures c.isMosPressed && c.curOpMode.Move? ==> r.geometry == Translated(c.geometry, Sub(p, c.prevMosPos))
    ensures c.isMosPressed && c.curOpMode.Resize? ==>
      r.geometry == ResizedGeometry(c.curResizeDirection, Sub(p, c.prevMosPos), c.geometry, lim)
    ensures c.curOpMode.None? || (c.curOpMode.Resize? && c.curResizeDirection.None?) ==> r.geometry == c.geometry
  {
    var off := Sub(p, c.prevMosPos);
    c.(
      prevMosPos := p,
      geometry :=
        if !c.isMosPressed then c.geometry
        else match c.curOpMode
          case Resize => ResizedGeometry(c.curResizeDirection, off, c.geometry, lim)
          case Move => Translated(c.geometry, off)
          case None => c.geometry,
      cursor :=
        if !c.isMosPressed && c.isResized then CursorFor(GetResizeDirection(c.geometry, p))
        else c.cursor)
  }

  /** A release of any button ends the gesture. */
  function AfterRelease(c: Controller): (r: Controller)
    ensures !r.isMosPressed && r.curOpMode.None? && r.curResizeDirection.None?
    ensures r == c.(isMosPressed := false, curOpMode := r.curOpMode, curResizeDirection := r.curResizeDirection)
  {
    c.(isMosPressed := false, curOpMode := OperationMode.None, curResizeDirection := ResizeDirection.None)
  }

  /** The inputs the controller reacts to. */
  datatype Event =
    | MousePress(pos: Point, button: MouseButton)
    | MouseMove(pos: Point)
    | MouseRelease
    | SetResized(on: bool)
    | SetDragging(on: bool)

  /** One event, with the window's size limits lim at the time. */
  function Step(c: Controller, e: Event, lim: SizeLimits): (r: Controller)
    ensures Consistent(c) ==> Consistent(r)
  {
    match e
    case MousePress(p, b) => AfterPress(c, p, b)
    case MouseMove(p) => AfterMove(c, p, lim)
    case MouseRelease => AfterRelease(c)
    case SetResized(on) => c.(isResized := on)
    case SetDragging(on) => c.(isDragging := on)
  }

  /** A sequence of events, in order, under fixed size limits. */
  function Run(c: Controller, evs: seq<Event>, lim: SizeLimits): Controller
    decreases |evs|
  {
    if evs == [] then c else Run(Step(c, evs[0], lim), evs[1..], lim)
  }

  /** The pointer moves through ps, one move event per point. */
  function Moves(ps: seq<Point>): (evs: seq<Event>)
    ensures |evs| == |ps|
    ensures forall i :: 0 <= i < |ps| ==> evs[i] == MouseMove(ps[i])
  {
    if ps == [] then [] else [MouseMove(ps[0])] + Moves(ps[1..])
  }
}
