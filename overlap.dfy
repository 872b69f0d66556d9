/** The clearance test behind free-space discovery (`isOverlapping`) and the fit
    test used at placement time (`canPlaceRectangle`). */
module Overlap {
  import opened Rects

  /** The `width × height` box at `(x, y)` meets `rect` grown by `spacing` on all
      four sides: it is not separated from the grown box along either axis
      (script.js:311-319). */
  predicate Intersects(x: int, y: int, width: int, height: int, rect: Placement, spacing: int)
  {
    !(x + width <= rect.x - spacing ||
      x >= rect.x + rect.width + spacing ||
      y + height <= rect.y - spacing ||
      y >= rect.y + rect.height + spacing)
  }

  /** `rects.some(...)`: the box meets some rectangle of `rects` grown by
      `spacing` (script.js:308-321). */
  function IsOverlapping(x: int, y: int, width: int, height: int,
                         rects: seq<Placement>, spacing: int): (r: bool)
    ensures r <==> exists i :: 0 <= i < |rects| && Intersects(x, y, width, height, rects[i], spacing)
    ensures rects == [] ==> !r
  {
    if rects == [] then false
    else Intersects(x, y, width, height, rects[0], spacing) ||
         IsOverlapping(x, y, width, height, rects[1..], spacing)
  }

  /** A `rectWidth × rectHeight` piece fits in `space` (script.js:302-305). */
  predicate CanPlaceRectangle(rectWidth: int, rectHeight: int, space: Space)
  {
    rectWidth <= space.width && rectHeight <= space.height
  }

  function Max(a: int, b: int): int { if a < b then b else a }
  function Min(a: int, b: int): int { if a < b then a else b }

  /** The open intervals `(lo1, hi1)` and `(lo2, hi2)` share a point. */
  predicate OpenIntervalsMeet(lo1: int, hi1: int, lo2: int, hi2: int)
  {
    Max(lo1, lo2) < Min(hi1, hi2)
  }

  /** For boxes of positive extent, `Intersects` is strict intersection of the
      open box with the open grown box: the interiors share a point on both axes. */
  lemma IntersectsMeaning(x: int, y: int, width: int, height: int, rect: Placement, spacing: int)
    requires width > 0 && height > 0
    requires rect.width + 2 * spacing > 0 && rect.height + 2 * spacing > 0
    ensures Intersects(x, y, width, height, rect, spacing) <==>
              OpenIntervalsMeet(x, x + width, rect.x - spacing, rect.x + rect.width + spacing) &&
              OpenIntervalsMeet(y, y + height, rect.y - spacing, rect.y + rect.height + spacing)
  {
  }

  /** A box that only touches an edge of the grown rectangle does not overlap it. */
  lemma TouchingIsClear(x: int, y: int, width: int, height: int, rect: Placement, spacing: int)
    requires x + width == rect.x - spacing || x == rect.x + rect.width + spacing ||
             y + height == rect.y - spacing || y == rect.y + rect.height + spacing
    ensures !IsOverlapping(x, y, width, height, [rect], spacing)
  {
  }

  /** Clearance is mutual: `p` keeps clear of `q` grown by the spacing exactly
      when `q` keeps clear of `p` grown by it. */
  lemma IntersectsSymmetric(p: Placement, q: Placement, spacing: int)
    ensures Intersects(p.x, p.y, p.width, p.height, q, spacing) ==
            Intersects(q.x, q.y, q.width, q.height, p, spacing)
  {
  }

  /** A piece that fits in a clear space, anchored at the space's corner, is
      itself clear: the acceptance test needs no clearance arithmetic of its own. */
  lemma FitInClearSpaceIsClear(w: int, h: int, space: Space, rects: seq<Placement>, spacing: int)
    requires CanPlaceRectangle(w, h, space)
    requires !IsOverlapping(space.x, space.y, space.width, space.height, rects, spacing)
    ensures !IsOverlapping(space.x, space.y, w, h, rects, spacing)
  {
    forall i | 0 <= i < |rects|
      ensures !Intersects(space.x, space.y, w, h, rects[i], spacing)
    {
      assert !Intersects(space.x, space.y, space.width, space.height, rects[i], spacing);
    }
  }
}
