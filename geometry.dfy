/**
 * Integer points and rectangles with the conventions of the toolkit's QPoint
 * and QRect, which the window controller relies on.
 *
 * A rectangle is stored by its two INCLUSIVE corners: the right edge is
 * x + width - 1 and the bottom edge is y + height - 1.  Setting one edge or
 * one corner moves only that edge or corner; the others keep their place.
 */
module Geometry {

  /** A point in global screen coordinates. */
  datatype Point = Point(x: int, y: int)

  function Add(p: Point, q: Point): (r: Point)
    ensures r.x - q.x == p.x && r.y - q.y == p.y
  {
    Point(p.x + q.x, p.y + q.y)
  }

  function Sub(p: Point, q: Point): (r: Point)
    ensures Add(q, r) == p
  {
    Point(p.x - q.x, p.y - q.y)
  }

  /** A rectangle given by its top-left corner (x1, y1) and its inclusive
      bottom-right corner (x2, y2). */
  datatype Rect = Rect(x1: int, y1: int, x2: int, y2: int)

  function LeftOf(r: Rect): int { r.x1 }
  function TopOf(r: Rect): int { r.y1 }
  function RightOf(r: Rect): int { r.x2 }
  function BottomOf(r: Rect): int { r.y2 }
  function X(r: Rect): int { r.x1 }
  function Y(r: Rect): int { r.y1 }

  function Width(r: Rect): (w: int)
    ensures RightOf(r) == X(r) + w - 1
  {
    r.x2 - r.x1 + 1
  }

  function Height(r: Rect): (h: int)
    ensures BottomOf(r) == Y(r) + h - 1
  {
    r.y2 - r.y1 + 1
  }

  function TopLeftOf(r: Rect): Point { Point(r.x1, r.y1) }
  function TopRightOf(r: Rect): Point { Point(r.x2, r.y1) }
  function BottomRightOf(r: Rect): Point { Point(r.x2, r.y2) }
  function BottomLeftOf(r: Rect): Point { Point(r.x1, r.y2) }

  /** Moves the left edge; the right edge stays where it was. */
  function SetLeft(r: Rect, v: int): (q: Rect)
    ensures LeftOf(q) == v && RightOf(q) == RightOf(r) && TopOf(q) == TopOf(r) && BottomOf(q) == BottomOf(r)
  {
    r.(x1 := v)
  }

  /** Moves the right edge; the left edge stays, so the width becomes v - left + 1. */
  function SetRight(r: Rect, v: int): (q: Rect)
    ensures LeftOf(q) == LeftOf(r) && Width(q) == v - LeftOf(r) + 1 && TopOf(q) == TopOf(r) && BottomOf(q) == BottomOf(r)
  {
    r.(x2 := v)
  }

  /** Moves the top edge; the bottom edge stays where it was. */
  function SetTop(r: Rect, v: int): (q: Rect)
    ensures TopOf(q) == v && BottomOf(q) == BottomOf(r) && LeftOf(q) == LeftOf(r) && RightOf(q) == RightOf(r)
  {
    r.(y1 := v)
  }

  /** Moves the bottom edge; the top edge stays, so the height becomes v - top + 1. */
  function SetBottom(r: Rect, v: int): (q: Rect)
    ensures TopOf(q) == TopOf(r) && Height(q) == v - TopOf(r) + 1 && LeftOf(q) == LeftOf(r) && RightOf(q) == RightOf(r)
  {
    r.(y2 := v)
  }

  /** Moves the top-left corner; the bottom-right corner stays. */
  function SetTopLeft(r: Rect, p: Point): (q: Rect)
    ensures TopLeftOf(q) == p && BottomRightOf(q) == BottomRightOf(r)
  {
    r.(x1 := p.x, y1 := p.y)
  }

  /** Moves the top-right corner; the bottom-left corner stays. */
  function SetTopRight(r: Rect, p: Point): (q: Rect)
    ensures TopRightOf(q) == p && BottomLeftOf(q) == BottomLeftOf(r)
  {
    r.(x2 := p.x, y1 := p.y)
  }

  /** Moves the bottom-right corner; the top-left corner stays. */
  function SetBottomRight(r: Rect, p: Point): (q: Rect)
    ensures BottomRightOf(q) == p && TopLeftOf(q) == TopLeftOf(r)
  {
    r.(x2 := p.x, y2 := p.y)
  }

  /** Moves the bottom-left corner; the top-right corner stays. */
  function SetBottomLeft(r: Rect, p: Point): (q: Rect)
    ensures BottomLeftOf(q) == p && TopRightOf(q) == TopRightOf(r)
  {
    r.(x1 := p.x, y2 := p.y)
  }

  /** Places the top-left corner at p and keeps the size, as a window move does. */
  function MoveTo(r: Rect, p: Point): (q: Rect)
    ensures TopLeftOf(q) == p && Width(q) == Width(r) && Height(q) == Height(r)
  {
    Rect(p.x, p.y, p.x + (r.x2 - r.x1), p.y + (r.y2 - r.y1))
  }

  /** Every edge shifted by d: the top-left corner moves by d and the size is kept. */
  function Translated(r: Rect, d: Point): (q: Rect)
    ensures TopLeftOf(q) == Add(TopLeftOf(r), d) && Width(q) == Width(r) && Height(q) == Height(r)
  {
    Rect(r.x1 + d.x, r.y1 + d.y, r.x2 + d.x, r.y2 + d.y)
  }
}
