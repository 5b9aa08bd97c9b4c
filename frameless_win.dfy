/**
 * The frameless window as an object: its configuration flags, the state of
 * the current gesture, the window rectangle and the cursor hint are fields
 * that the event handlers update in place.  Each handler is proved to leave
 * the fields exactly as the matching transition of FramelessModel says.
 */
module FramelessWidget {
  import opened Geometry
  import opened FramelessModel

  class FramelessWin {
    var isDragging: bool
    var isResized: bool
    var isMosPressed: bool
    var prevMosPos: Point
    var curOpMode: OperationMode
    var curResizeDirection: ResizeDirection
    /** The window rectangle, read with geometry() and written with setGeometry() or move(). */
    var geometry: Rect
    /** The cursor shape last passed to setCursor(). */
    var cursor: CursorShape

    /** The fields as a value. */
    ghost function State(): Controller
      reads this
    {
      Controller(isDragging, isResized, isMosPressed, prevMosPos, curOpMode, curResizeDirection, geometry, cursor)
    }

    /** A window over the rectangle g, with dragging and resizing off and no gesture. */
    constructor (g: Rect)
      ensures State() == InitialController(g)
    {
      isDragging := false;
      isResized := false;
      isMosPressed := false;
      prevMosPos := Point(0, 0);
      curOpMode := OperationMode.None;
      curResizeDirection := ResizeDirection.None;
      geometry := g;
      cursor := ArrowCursor;
    }

    /** Turns edge resizing on or off; nothing else in the controller changes. */
    method SetResized(on: bool)
      modifies this`isResized
      ensures State() == old(State()).(isResized := on)
    {
      isResized := on;
    }

    /** Turns dragging on or off; an ongoing gesture keeps its mode and zone. */
    method SetDragging(on: bool)
      modifies this`isDragging
      ensures State() == old(State()).(isDragging := on)
    {
      isDragging := on;
    }

    method MousePressEvent(globalPos: Point, button: MouseButton)
      modifies this
      ensures State() == AfterPress(old(State()), globalPos, button)
    {
      if button == LeftButton {
        isMosPressed := true;
        prevMosPos := globalPos;
        InitializeOperation(globalPos);
      }
    }

    method InitializeOperation(globalPos: Point)
      modifies this`curOpMode, this`curResizeDirection
      ensures State() == AfterInitializeOperation(old(State()), globalPos)
    {
      if !isResized && !isDragging {
        curOpMode := OperationMode.None;
        return;
      }
      if isResized {
        curResizeDirection := GetResizeDirection(geometry, globalPos);
        if curResizeDirection != ResizeDirection.None {
          curOpMode := Resize;
          return;
        }
      }
      if isDragging {
        curOpMode := Move;
      }
    }

    method MouseMoveEvent(globalPos: Point, limits: SizeLimits)
      modifies this
      ensures State() == AfterMove(old(State()), globalPos, limits)
    {
      if !isMosPressed {
        if isResized {
          UpdateCursor(GetResizeDirection(geometry, globalPos));
        }
      } else {
        match curOpMode
        case Resize =>
          if curResizeDirection != ResizeDirection.None {
            ApplyResize(globalPos, limits);
          }
        case Move =>
          geometry := MoveTo(geometry, Add(TopLeftOf(geometry), Sub(globalPos, prevMosPos)));
        case None =>
      }
      prevMosPos := globalPos;
    }

    method MouseReleaseEvent()
      modifies this
      ensures State() == AfterRelease(old(State()))
    {
      isMosPressed := false;
      curOpMode := OperationMode.None;
      curResizeDirection := ResizeDirection.None;
    }

    method UpdateCursor(direction: ResizeDirection)
      modifies this`cursor
      ensures cursor == CursorFor(direction)
    {
      cursor := CursorFor(direction);
    }

    /**
     * One resize step for the latched zone: the pointer displacement since
     * the previous event moves the zone's edge or corner, the size is pinned
     * into the limits, and the rectangle is written back.
     */
    method ApplyResize(globalPos: Point, limits: SizeLimits)
      modifies this`geometry
      ensures geometry == ResizedGeometry(curResizeDirection, Sub(globalPos, prevMosPos), old(geometry), limits)
    {
      var off := Sub(globalPos, prevMosPos);
      var newGeom: Rect;
      match curResizeDirection {
      case TopLeft =>
        newGeom := ResizeTopLeft(geometry, off, limits);
      case TopRight =>
        newGeom := ResizeTopRight(geometry, off, limits);
      case BottomRight =>
        newGeom := ResizeBottomRight(geometry, off, limits);
      case BottomLeft =>
        newGeom := ResizeBottomLeft(geometry, off, limits);
      case Left =>
        newGeom := ResizeLeft(geometry, off, limits);
      case Right =>
        newGeom := ResizeRight(geometry, off, limits);
      case Top =>
        newGeom := ResizeTop(geometry, off, limits);
      case Bottom =>
        newGeom := ResizeBottom(geometry, off, limits);
      case None =>
        return;
      }
      geometry := newGeom;
    }

    static method ResizeTopLeft(g: Rect, off: Point, limits: SizeLimits) returns (newGeom: Rect)
      ensures newGeom == ResizedGeometry(ResizeDirection.TopLeft, off, g, limits)
    {
      newGeom := g;
      var newTopLeft := Add(TopLeftOf(newGeom), off);
      var newWidth := (X(newGeom) + Width(newGeom)) - newTopLeft.x;
      var newHeight := (Y(newGeom) + Height(newGeom)) - newTopLeft.y;
      if newWidth < limits.minWidth {
        newTopLeft := newTopLeft.(x := (X(newGeom) + Width(newGeom)) - limits.minWidth);
      } else if newWidth > limits.maxWidth {
        newTopLeft := newTopLeft.(x := (X(newGeom) + Width(newGeom)) - limits.maxWidth);
      }
      if newHeight < limits.minHeight {
        newTopLeft := newTopLeft.(y := (Y(newGeom) + Height(newGeom)) - limits.minHeight);
      } else if newHeight > limits.maxHeight {
        newTopLeft := newTopLeft.(y := (Y(newGeom) + Height(newGeom)) - limits.maxHeight);
      }
      newGeom := SetTopLeft(newGeom, newTopLeft);
    }

    static method ResizeTopRight(g: Rect, off: Point, limits: SizeLimits) returns (newGeom: Rect)
      ensures newGeom == ResizedGeometry(ResizeDirection.TopRight, off, g, limits)
    {
      newGeom := g;
      var newTopRight := Add(TopRightOf(newGeom), off);
      var newWidth := newTopRight.x - LeftOf(newGeom);
      var newHeight := (Y(newGeom) + Height(newGeom)) - newTopRight.y;
      if newWidth < limits.minWidth {
        newTopRight := newTopRight.(x := LeftOf(newGeom) + limits.minWidth);
      } else if newWidth > limits.maxWidth {
        newTopRight := newTopRight.(x := LeftOf(newGeom) + limits.maxWidth);
      }
      if newHeight < limits.minHeight {
        newTopRight := newTopRight.(y := (Y(newGeom) + Height(newGeom)) - limits.minHeight);
      } else if newHeight > limits.maxHeight {
        newTopRight := newTopRight.(y := (Y(newGeom) + Height(newGeom)) - limits.maxHeight);
      }
      newGeom := SetTopRight(newGeom, newTopRight);
    }

    static method ResizeBottomRight(g: Rect, off: Point, limits: SizeLimits) returns (newGeom: Rect)
      ensures newGeom == ResizedGeometry(ResizeDirection.BottomRight, off, g, limits)
    {
      newGeom := g;
      var newBottomRight := Add(BottomRightOf(newGeom), off);
      var newWidth := newBottomRight.x - LeftOf(newGeom);
      var newHeight := newBottomRight.y - TopOf(newGeom);
      if newWidth < limits.minWidth {
        newBottomRight := newBottomRight.(x := LeftOf(newGeom) + limits.minWidth);
      } else if newWidth > limits.maxWidth {
        newBottomRight := newBottomRight.(x := LeftOf(newGeom) + limits.maxWidth);
      }
      if newHeight < limits.minHeight {
        newBottomRight := newBottomRight.(y := TopOf(newGeom) + limits.minHeight);
      } else if newHeight > limits.maxHeight {
        newBottomRight := newBottomRight.(y := TopOf(newGeom) + limits.maxHeight);
      }
      newGeom := SetBottomRight(newGeom, newBottomRight);
    }

    static method ResizeBottomLeft(g: Rect, off: Point, limits: SizeLimits) returns (newGeom: Rect)
      ensures newGeom == ResizedGeometry(ResizeDirection.BottomLeft, off, g, limits)
    {
      newGeom := g;
      var newBottomLeft := Add(BottomLeftOf(newGeom), off);
      var newWidth := (X(newGeom) + Width(newGeom)) - newBottomLeft.x;
      var newHeight := newBottomLeft.y - TopOf(newGeom);
      if newWidth < limits.minWidth {
        newBottomLeft := newBottomLeft.(x := (X(newGeom) + Width(newGeom)) - limits.minWidth);
      } else if newWidth > limits.maxWidth {
        newBottomLeft := newBottomLeft.(x := (X(newGeom) + Width(newGeom)) - limits.maxWidth);
      }
      if newHeight < limits.minHeight {
        newBottomLeft := newBottomLeft.(y := TopOf(newGeom) + limits.minHeight);
      } else if newHeight > limits.maxHeight {
        newBottomLeft := newBottomLeft.(y := TopOf(newGeom) + limits.maxHeight);
      }
      newGeom := SetBottomLeft(newGeom, newBottomLeft);
    }

    static method ResizeLeft(g: Rect, off: Point, limits: SizeLimits) returns (newGeom: Rect)
      ensures newGeom == ResizedGeometry(ResizeDirection.Left, off, g, limits)
    {
      newGeom := g;
      var newX := LeftOf(newGeom) + off.x;
      var newWidth := (X(newGeom) + Width(newGeom)) - newX;
      if newWidth < limits.minWidth {
        newX := (X(newGeom) + Width(newGeom)) - limits.minWidth;
      } else if newWidth > limits.maxWidth {
        newX := (X(newGeom) + Width(newGeom)) - limits.maxWidth;
      }
      newGeom := SetLeft(newGeom, newX);
    }

    static method ResizeRight(g: Rect, off: Point, limits: SizeLimits) returns (newGeom: Rect)
      ensures newGeom == ResizedGeometry(ResizeDirection.Right, off, g, limits)
    {
      newGeom := g;
      var newX := RightOf(newGeom) + off.x;
      var newWidth := newX - LeftOf(newGeom);
      if newWidth < limits.minWidth {
        newX := LeftOf(newGeom) + limits.minWidth;
      } else if newWidth > limits.maxWidth {
        newX := LeftOf(newGeom) + limits.maxWidth;
      }
      newGeom := SetRight(newGeom, newX);
    }

    static method ResizeTop(g: Rect, off: Point, limits: SizeLimits) returns (newGeom: Rect)
      ensures newGeom == ResizedGeometry(ResizeDirection.Top, off, g, limits)
    {
      newGeom := g;
      var newY := TopOf(newGeom) + off.y;
      var newHeight := (Y(newGeom) + Height(newGeom)) - newY;
      if newHeight < limits.minHeight {
        newY := (Y(newGeom) + Height(newGeom)) - limits.minHeight;
      } else if newHeight > limits.maxHeight {
        newY := (Y(newGeom) + Height(newGeom)) - limits.maxHeight;
      }
      newGeom := SetTop(newGeom, newY);
    }

    static method ResizeBottom(g: Rect, off: Point, limits: SizeLimits) returns (newGeom: Rect)
      ensures newGeom == ResizedGeometry(ResizeDirection.Bottom, off, g, limits)
    {
      newGeom := g;
      var newY := BottomOf(newGeom) + off.y;
      var newHeight := newY - TopOf(newGeom);
      if newHeight < limits.minHeight {
        newY := TopOf(newGeom) + limits.minHeight;
      } else if newHeight > limits.maxHeight {
        newY := TopOf(newGeom) + limits.maxHeight;
      }
      newGeom := SetBottom(newGeom, newY);
    }
  }
}
