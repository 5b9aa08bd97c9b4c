# FramelessWin: a verified model of a borderless window's move/resize controller

`FramelessWin` is a borderless Qt window that provides its own move and resize
handling. A left press starts a gesture. If resizing is enabled and the pointer is
within 5 pixels of an edge or corner, the gesture resizes the window from that
zone. Otherwise, if dragging is enabled, the gesture moves the window. Each pointer
move updates the window rectangle from the displacement since the previous event.
A release ends the gesture. When no gesture is in progress and resizing is enabled,
the cursor shape shows the zone under the pointer.

The model has four modules:

- `Geometry` (geometry.dfy) holds points and rectangles with the toolkit's
  conventions, which the code depends on. A rectangle is stored by its inclusive
  corners. `right() = x + width - 1` and `bottom() = y + height - 1`. Setting an
  edge or a corner leaves the other edges in place.
- `FramelessModel` (frameless_model.dfy) holds the logic as pure functions:
  - the nine-valued `ResizeDirection`, the three-valued `OperationMode` and the
    threshold `ResizeScaleLimit = 5`;
  - the classifier `GetResizeDirection` and a reference `FirstHit` over the
    priority list;
  - the cursor mapping `CursorFor`;
  - `ResizedGeometry`, which gives the rectangle after one resize step from a
    table of which edges each zone drags;
  - a snapshot `Controller` of the widget's fields, one transition per input event
    (`AfterPress`, `AfterMove`, `AfterRelease`, the two setters), `Step`, and `Run`
    over event sequences.
- `FramelessWidget` (frameless_win.dfy) holds the class `FramelessWin`. Its fields
  are the source's fields plus the window rectangle and the cursor last set. Its
  methods are imperative and follow the source's control flow. Each one is proved
  to leave the fields exactly as the matching transition says. `ApplyResize`
  dispatches on the latched zone. Each zone's block is a method of its own
  (`ResizeTopLeft`, …). Each block mutates a local copy of the rectangle through
  the setters, as the source does, and is proved equal to `ResizedGeometry`.
- `FramelessLemmas` (frameless_lemmas.dfy) proves properties of the model:
  - the zone priority order;
  - which edges stay fixed and how the size is pinned to the limits;
  - the sample scenarios;
  - invariants over arbitrary event sequences: no operation outside a press, and
    the size stays within [minimum, maximum + 1];
  - that a drag follows the pointer, and that hovering never moves the window.

Points of the code that the model keeps as written:

- A clamped right or bottom step gives `minimum + 1` or `maximum + 1`, and an
  unclamped one gives `width + dx` (or `height + dy`). The size test is made on
  the inclusive `right()`/`bottom()`, one less than the size it produces
  (FramelessWin/FramelessWin.cpp:241-248 and 268-275), as the TODO at
  FramelessWin/FramelessWin.cpp:138-139 acknowledges. Left and top steps give
  exactly the limit. `RightEdgeDrag`, `BottomEdgeDrag` and
  `RightEdgeOvershootsMaximum` prove these values.
- The corners' right and bottom parts (`topRight()`, `bottomRight()`,
  `bottomLeft()`) use the same inclusive edge as the Right and Bottom zones. So
  one function, `FarEdgeAfterDrag`, serves the edge zones and the corners alike.
- With resizing on, no zone hit and dragging off, the initializer clears the
  latched zone and keeps the mode (`AfterInitializeOperation`).
- There is no release on loss of pointer capture. A gesture ends only with a
  release event.

## Model

| member | source | states |
|---|---|---|
| FramelessModel.GetResizeDirection | FramelessWin/FramelessWin.cpp:110-136 | The zone is None exactly when the pointer is more than 5 pixels from all four inclusive edges. Any other zone returned is one whose test holds at the pointer. |
| FramelessModel.FirstHit | FramelessWin/FramelessWin.cpp:118-135 | Reference priority chain: the first zone in a list whose test holds. Any zone it returns has a test that holds. |
| FramelessLemmas.PriorityChain | FramelessWin/FramelessWin.cpp:118-135 | FirstHit over the order TopLeft, TopRight, BottomRight, BottomLeft, Left, Right, Top, Bottom is the chain of tests, in that order, ending in None. |
| FramelessLemmas.ClassifierFollowsPriority | FramelessWin/FramelessWin.cpp:110-136 | The classifier returns exactly FirstHit over that priority order. |
| FramelessLemmas.FirstHitIsFirst | FramelessWin/FramelessWin.cpp:118-135 | FirstHit returns None when no zone's test holds. Otherwise it returns a zone whose test holds and before which no zone's test holds. |
| FramelessLemmas.CornersBeforeEdges | FramelessWin/FramelessWin.cpp:118-125 | A corner zone is returned if and only if some corner has both of its edges within the margin. |
| FramelessLemmas.SingleEdgeZones | FramelessWin/FramelessWin.cpp:126-133 | Near exactly one edge, the classifier returns that edge's zone. |
| FramelessLemmas.AdjacentEdgesGiveCorner | FramelessWin/FramelessWin.cpp:118-125 | Near two adjacent edges, the classifier returns the corner between them unless an earlier corner also applies. Near the right and bottom edges but not the top, BottomRight is returned whatever the left edge. |
| FramelessLemmas.NarrowWindowPrefersLeftAndTop | FramelessWin/FramelessWin.cpp:126-133 | When both side margins overlap, Left wins over Right. When the top and bottom margins overlap, Top wins over Bottom. |
| FramelessLemmas.MarginIsFivePixels | FramelessWin/FramelessWin.cpp:112-135 | The margin is 5 pixels on both sides of each of the four edges, inclusive. A point 5 pixels inside or outside an edge, and near no other edge, is in that edge's zone. One 6 pixels away is in no zone. |
| FramelessModel.CursorFor | FramelessWin/FramelessWin.cpp:85-108 | TopLeft/BottomRight give the FDiag cursor, TopRight/BottomLeft give BDiag, Left/Right give Hor, Top/Bottom give Ver and None gives Arrow. Each is stated as an if-and-only-if on which edges the zone drags. |
| FramelessModel.Clamp | FramelessWin/FramelessWin.cpp:151-155 | The size test: below the minimum gives the minimum, and the minimum test runs first. Above the maximum gives the maximum. Otherwise the value is kept. With ordered limits the result lies in [min, max]. |
| FramelessModel.NearEdgeAfterDrag | FramelessWin/FramelessWin.cpp:226-237 | A dragged left or top edge follows the pointer. If the span to the fixed far edge would leave [min, max], the span is pinned to min (tested first) or to max. |
| FramelessModel.FarEdgeAfterDrag | FramelessWin/FramelessWin.cpp:239-251 | A dragged right or bottom edge follows the pointer. If right + dx - left would leave [min, max], the edge is pinned at left + min or left + max. |
| FramelessModel.ResizedGeometry | FramelessWin/FramelessWin.cpp:140-285 | Each edge that the zone does not drag stays where it was. |
| FramelessLemmas.LeftEdgeDrag | FramelessWin/FramelessWin.cpp:226-237 | Left edge, alone or in a corner: the right edge is fixed. The width becomes width - dx, pinned to min if below it (min tested first) or to max if above it. |
| FramelessLemmas.TopEdgeDrag | FramelessWin/FramelessWin.cpp:253-264 | Top edge, alone or in a corner: the bottom edge is fixed. The height becomes height - dy, pinned to min (tested first) or to max. |
| FramelessLemmas.RightEdgeDrag | FramelessWin/FramelessWin.cpp:239-251 | Right edge, alone or in a corner: the left edge is fixed. Unclamped, the width becomes width + dx. Clamped, the right edge is at left + min or left + max, so the width is min + 1 or max + 1. |
| FramelessLemmas.BottomEdgeDrag | FramelessWin/FramelessWin.cpp:266-278 | Bottom edge, alone or in a corner: the top edge is fixed. Unclamped, the height becomes height + dy. Clamped, it is min + 1 or max + 1. |
| FramelessLemmas.ResizedSizeBounds | FramelessWin/FramelessWin.cpp:140-285 | With ordered limits, a dragged left or top edge gives a size in [min, max]. A dragged right or bottom edge gives [min + 1, max + 1]. An axis the zone does not drag keeps its size. |
| FramelessLemmas.NoZoneNoResize | FramelessWin/FramelessWin.cpp:280-281 | With no zone, a resize step leaves the rectangle unchanged. |
| FramelessLemmas.MinimumTestedFirst | FramelessWin/FramelessWin.cpp:151-161 | The minimum is tested first. With a minimum above the maximum, every dragged edge is pinned. A left or top step gives exactly the minimum when the new size is below it and the maximum otherwise. A right or bottom step gives minimum + 1 or maximum + 1. |
| FramelessLemmas.BottomRightScenario | FramelessWin/FramelessWin.cpp:186-204 | A 200x150 window at (100,100) dragged by its bottom-right corner by (10,-5), with limits 50..1000, becomes 210x145 at the same place. |
| FramelessLemmas.LeftEdgeMinimumScenario | FramelessWin/FramelessWin.cpp:226-237 | The same window, with its left edge dragged 190 to the right and a minimum width of 50, gets left edge 250 and width 50. Its right edge stays at 299. |
| FramelessLemmas.RightEdgeOvershootsMaximum | FramelessWin/FramelessWin.cpp:226-251 | Pinning the right edge at the maximum gives width max + 1 (1001). Pinning the left edge gives exactly max (1000). |
| FramelessModel.InitialController | FramelessWin/FramelessWin.h:35-40 | A fresh controller has both flags off, no press, mode None and no latched zone. |
| FramelessModel.AfterInitializeOperation | FramelessWin/FramelessWin.cpp:32-50 | Only the mode and the latched zone change. Both flags off gives mode None. Resize on with a zone hit gives Resize with that zone latched, even if drag is also on. Resize on with no hit clears the zone, and the mode becomes Move if drag is on and is otherwise left unchanged. Drag on with resize off gives Move. |
| FramelessModel.AfterPress | FramelessWin/FramelessWin.cpp:22-30 | A non-left press changes nothing. A left press sets pressed and the previous position to the press point, and keeps the flags, the rectangle and the cursor. It then chooses the operation. Both flags off gives mode None. Resize on with a zone under the point latches Resize with that zone. Resize on with no zone clears the zone and gives Move if drag is on, and keeps the mode otherwise. Drag alone gives Move. |
| FramelessModel.AfterMove | FramelessWin/FramelessWin.cpp:52-75 | The previous position becomes the current point in every state. The flags, pressed, the mode and the zone never change. Not pressed: the rectangle is unchanged, and if resize is on the cursor is CursorFor(zone under the pointer). Move mode: the rectangle is translated by current - previous. Resize mode: the rectangle becomes ResizedGeometry. Mode None, or Resize with no zone: the rectangle is unchanged. |
| Geometry.Translated | FramelessWin/FramelessWin.cpp:67-69 | A window move shifts the top-left corner by the pointer displacement and keeps the width and height. |
| FramelessModel.AfterRelease | FramelessWin/FramelessWin.cpp:77-83 | A release clears pressed, the mode and the latched zone, and changes nothing else. |
| FramelessModel.Step | FramelessWin/FramelessWin.cpp:22-83 | Every event preserves "no mode and no latched zone while not pressed". |
| FramelessWidget.FramelessWin.constructor | FramelessWin/FramelessWin.h:35-40 | The fields start as InitialController over the given rectangle. |
| FramelessWidget.FramelessWin.SetResized | FramelessWin/FramelessWin.h:14-18 | Sets the resize flag and no other field. |
| FramelessWidget.FramelessWin.SetDragging | FramelessWin/FramelessWin.h:20 | Sets the drag flag and no other field, so a gesture in progress keeps its mode and zone. |
| FramelessWidget.FramelessWin.MousePressEvent | FramelessWin/FramelessWin.cpp:22-30 | The new fields are AfterPress of the old ones. |
| FramelessWidget.FramelessWin.InitializeOperation | FramelessWin/FramelessWin.cpp:32-50 | The early-return code leaves the fields as AfterInitializeOperation says. |
| FramelessWidget.FramelessWin.MouseMoveEvent | FramelessWin/FramelessWin.cpp:52-75 | The new fields are AfterMove of the old ones. |
| FramelessWidget.FramelessWin.MouseReleaseEvent | FramelessWin/FramelessWin.cpp:77-83 | The new fields are AfterRelease of the old ones. |
| FramelessWidget.FramelessWin.UpdateCursor | FramelessWin/FramelessWin.cpp:85-108 | The recorded cursor is CursorFor(direction). |
| FramelessWidget.FramelessWin.ApplyResize | FramelessWin/FramelessWin.cpp:140-285 | The rectangle becomes ResizedGeometry(latched zone, current - previous, old rectangle, limits). With no zone it is left as it was. |
| FramelessWidget.FramelessWin.ResizeTopLeft | FramelessWin/FramelessWin.cpp:146-164 | The TopLeft block (setTopLeft after both clamps) equals ResizedGeometry for TopLeft. |
| FramelessWidget.FramelessWin.ResizeTopRight | FramelessWin/FramelessWin.cpp:166-184 | The TopRight block equals ResizedGeometry for TopRight. |
| FramelessWidget.FramelessWin.ResizeBottomRight | FramelessWin/FramelessWin.cpp:186-204 | The BottomRight block equals ResizedGeometry for BottomRight. |
| FramelessWidget.FramelessWin.ResizeBottomLeft | FramelessWin/FramelessWin.cpp:206-224 | The BottomLeft block equals ResizedGeometry for BottomLeft. |
| FramelessWidget.FramelessWin.ResizeLeft | FramelessWin/FramelessWin.cpp:226-237 | The Left block (setLeft) equals ResizedGeometry for Left. |
| FramelessWidget.FramelessWin.ResizeRight | FramelessWin/FramelessWin.cpp:239-251 | The Right block (setRight from the inclusive right()) equals ResizedGeometry for Right. |
| FramelessWidget.FramelessWin.ResizeTop | FramelessWin/FramelessWin.cpp:253-264 | The Top block (setTop) equals ResizedGeometry for Top. |
| FramelessWidget.FramelessWin.ResizeBottom | FramelessWin/FramelessWin.cpp:266-278 | The Bottom block (setBottom from the inclusive bottom()) equals ResizedGeometry for Bottom. |
| FramelessLemmas.ReleaseEndsGesture | FramelessWin/FramelessWin.cpp:77-83 | After any event sequence, a release leaves no press, mode None and no zone, and keeps the rectangle. |
| FramelessLemmas.RunKeepsConsistent | FramelessWin/FramelessWin.cpp:22-83 | Over any event sequence, "no mode and no zone while not pressed" is preserved. |
| FramelessLemmas.ReachableStatesConsistent | FramelessWin/FramelessWin.h:37-40 | In every state reachable from construction, a mode or a latched zone exists only while pressed. |
| FramelessLemmas.StepKeepsSizeWithin | FramelessWin/FramelessWin.cpp:52-75 | With ordered limits, one event keeps both dimensions in [min, max + 1]. |
| FramelessLemmas.RunKeepsSizeWithin | FramelessWin/FramelessWin.cpp:52-75 | With fixed ordered limits, no event sequence takes the size out of [min, max + 1]. |
| FramelessLemmas.GestureLatched | FramelessWin/FramelessWin.cpp:52-75 | Moves never change the flags, pressed, the mode or the latched zone. The last point becomes the previous position. |
| FramelessLemmas.DragFollowsPointer | FramelessWin/FramelessWin.cpp:67-73 | In Move mode, moves through p1..pn translate the window by pn minus the position before p1. |
| FramelessLemmas.PressThenDrag | FramelessWin/FramelessWin.cpp:22-73 | A left press at p0 with drag on and no zone hit, followed by moves to p1..pn, translates the window by pn - p0. The press point is the baseline. |
| FramelessLemmas.HoverKeepsGeometry | FramelessWin/FramelessWin.cpp:56-59 | With no press held, moves never change the rectangle. With resize on, the cursor shows the zone under the last point. With resize off, the cursor is untouched. |
| FramelessLemmas.PressAtCornerLatchesResize | FramelessWin/FramelessWin.cpp:32-50 | A left press at the top-left corner with both flags on latches Resize/TopLeft, not Move. |

## Left out

- The constructor's window-flag setup and `paintEvent` (FramelessWin/FramelessWin.cpp:8-20) are toolkit styling and painting with no logic.
- Calls to the base class's mouse handlers are toolkit event plumbing and are not modelled.
- The mouse tracking that `setResized` switches on is not modelled. It only makes the toolkit deliver moves while no button is held; the model delivers every move it is given.
- `setCursor`, `setGeometry` and `move` are modelled as plain assignments to the `cursor` and `geometry` fields. The toolkit's own adjustment of a geometry (it bounds a widget by its minimum and maximum size) and the window manager's are outside the model. This is why `RightEdgeDrag` can state a width of maximum + 1.
- The window's minimum and maximum size are read by the source from the widget. The model passes them as a parameter of each move event. The `Run` lemmas hold them fixed over a sequence.
- The frame position `pos()` and the client `geometry()` are treated as the same origin, which is right for a frameless top-level window.
- Coordinates are unbounded integers. 32-bit overflow in the coordinate arithmetic is not modelled.
- Mouse buttons are reduced to left and three others. Only "left or not" matters to the code.
- A release on loss of focus or pointer capture is not modelled because the code has none.

