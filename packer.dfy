/** Single-board greedy placement (`packRectangles`, script.js:205-259): every
    piece in turn goes into the first candidate space it fits, as given and
    then rotated, or is recorded as failed. */
module Packer {
  import opened Rects
  import opened Overlap
  import opened FreeSpace

  /** The index of the first space, from `from` on, that a `w × h` piece fits in. */
  function FitFrom(spaces: seq<Space>, w: int, h: int, from: nat): (r: Option<nat>)
    requires from <= |spaces|
    ensures r.Some? ==> (from <= r.value < |spaces| && CanPlaceRectangle(w, h, spaces[r.value]) &&
                         forall j :: from <= j < r.value ==> !CanPlaceRectangle(w, h, spaces[j]))
    ensures r.None? ==> forall j :: from <= j < |spaces| ==> !CanPlaceRectangle(w, h, spaces[j])
    decreases |spaces| - from
  {
    if from == |spaces| then None
    else if CanPlaceRectangle(w, h, spaces[from]) then Some(from)
    else FitFrom(spaces, w, h, from + 1)
  }

  /** The entry `packRectangles` appends for `rect`, the `i`-th piece of the
      pass, when `spaces` are the board's free spaces (script.js:211-255). */
  function PlaceIn(spaces: seq<Space>, rect: Piece, i: nat): Placement
  {
    match FitFrom(spaces, rect.width, rect.height, 0)
    case Some(k) =>
      Placement(spaces[k].x, spaces[k].y, rect.width, rect.height, rect.id, i, false, false)
    case None =>
      match FitFrom(spaces, rect.height, rect.width, 0)
      case Some(k) =>
        Placement(spaces[k].x, spaces[k].y, rect.height, rect.width, rect.id, i,
                  rect.height != rect.width, false)
      case None =>
        Placement(-1, -1, rect.width, rect.height, rect.id, i, false, true)
  }

  /** The same entry when `placed` is what the board already holds. */
  function PlaceOne(boardWidth: int, boardHeight: int, placed: seq<Placement>,
                    rect: Piece, i: nat, spacing: int): Placement
  {
    PlaceIn(FreeSpaces(boardWidth, boardHeight, placed, spacing), rect, i)
  }

  /** The entries produced by applying `step` to each piece in turn, where
      `step` sees the entries produced so far, the piece and its index. */
  function Scan(step: (seq<Placement>, Piece, nat) -> Placement, rects: seq<Piece>): (r: seq<Placement>)
    ensures |r| == |rects|
  {
    if rects == [] then []
    else
      var done := Scan(step, rects[..|rects| - 1]);
      done + [step(done, rects[|rects| - 1], |rects| - 1)]
  }

  /** The entries of one pass over `rects` on an empty board. */
  function PackBoard(boardWidth: int, boardHeight: int, rects: seq<Piece>, spacing: int)
    : (r: seq<Placement>)
    ensures |r| == |rects|
  {
    Scan((done: seq<Placement>, rect: Piece, i: nat) =>
           PlaceOne(boardWidth, boardHeight, done, rect, i, spacing), rects)
  }

  /** The body of the piece loop of `packRectangles` (script.js:211-255): tries
      the piece as given and then rotated, recomputing the free spaces for each
      orientation and taking the first space the piece fits in; a piece that
      fits nowhere gets a failure entry. */
  method PlaceRectangle(boardWidth: int, boardHeight: int, placements: seq<Placement>,
                        rect: Piece, i: nat, spacing: int) returns (entry: Placement)
    ensures entry == PlaceIn(FreeSpaces(boardWidth, boardHeight, placements, spacing), rect, i)
  {
    ghost var spaces := FreeSpaces(boardWidth, boardHeight, placements, spacing);
    // The failure entry (script.js:245-254), replaced as soon as a space fits.
    entry := Placement(-1, -1, rect.width, rect.height, rect.id, i, false, true);
    var placed := false;
    var orientations := [(rect.width, rect.height), (rect.height, rect.width)];
    var o := 0;
    while o < |orientations| && !placed
      invariant 0 <= o <= |orientations|
      invariant !placed ==> entry == Placement(-1, -1, rect.width, rect.height, rect.id, i, false, true)
      invariant !placed ==> forall t :: 0 <= t < o ==>
                  FitFrom(spaces, orientations[t].0, orientations[t].1, 0).None?
      invariant placed ==> entry == PlaceIn(spaces, rect, i)
    {
      var orientation := orientations[o];
      var freeSpaces := GetFreeSpaces(boardWidth, boardHeight, placements, spacing);
      var k := 0;
      while k < |freeSpaces| && !placed
        invariant 0 <= k <= |freeSpaces|
        invariant !placed ==> entry == Placement(-1, -1, rect.width, rect.height, rect.id, i, false, true)
        invariant !placed ==> FitFrom(freeSpaces, orientation.0, orientation.1, 0) ==
                              FitFrom(freeSpaces, orientation.0, orientation.1, k)
        invariant placed ==> (0 < k && FitFrom(freeSpaces, orientation.0, orientation.1, 0) == Some(k - 1) &&
                              entry == Placement(freeSpaces[k - 1].x, freeSpaces[k - 1].y,
                                                 orientation.0, orientation.1, rect.id, i,
                                                 orientation.0 != rect.width, false))
      {
        var space := freeSpaces[k];
        if CanPlaceRectangle(orientation.0, orientation.1, space) {
          entry := Placement(space.x, space.y, orientation.0, orientation.1,
                             rect.id, i, orientation.0 != rect.width, false);
          placed := true;
        }
        k := k + 1;
      }
      if placed && o == 1 {
        assert FitFrom(spaces, rect.width, rect.height, 0).None? by {
          assert orientations[0] == (rect.width, rect.height);
        }
      }
      o := o + 1;
    }
    if !placed {
      assert orientations[0] == (rect.width, rect.height);
      assert orientations[1] == (rect.height, rect.width);
    }
  }

  /** `packRectangles`: one entry per piece, in order. */
  method PackRectangles(boardWidth: int, boardHeight: int, rectangles: seq<Piece>, spacing: int)
    returns (placements: seq<Placement>)
    ensures placements == PackBoard(boardWidth, boardHeight, rectangles, spacing)
  {
    placements := [];
    for i := 0 to |rectangles|
      invariant placements == PackBoard(boardWidth, boardHeight, rectangles[..i], spacing)
    {
      var entry := PlaceRectangle(boardWidth, boardHeight, placements, rectangles[i], i, spacing);
      placements := placements + [entry];
      PackBoardStep(boardWidth, boardHeight, rectangles, spacing, i);
    }
    assert rectangles[..|rectangles|] == rectangles;
  }

  lemma PrefixOfAppend<T>(a: seq<T>, b: seq<T>, i: nat)
    requires i <= |a|
    ensures (a + b)[..i] == a[..i]
  {
  }

  lemma PrefixOfPrefix<T>(a: seq<T>, n: nat, i: nat)
    requires i <= n <= |a|
    ensures a[..n][..i] == a[..i]
  {
  }

  /** Scanning a prefix of the pieces gives the prefix of the scan. */
  lemma {:induction false} ScanPrefix(step: (seq<Placement>, Piece, nat) -> Placement,
                                      rects: seq<Piece>, i: nat)
    requires i <= |rects|
    ensures Scan(step, rects[..i]) == Scan(step, rects)[..i]
    decreases |rects|
  {
    if i == |rects| {
      assert rects[..i] == rects;
    } else {
      var init := rects[..|rects| - 1];
      PrefixOfPrefix(rects, |rects| - 1, i);
      ScanPrefix(step, init, i);
      var done := Scan(step, init);
      PrefixOfAppend(done, [step(done, rects[|rects| - 1], |rects| - 1)], i);
    }
  }

  /** One more piece adds one more entry to the pass. */
  lemma PackBoardStep(boardWidth: int, boardHeight: int, rects: seq<Piece>, spacing: int, i: nat)
    requires i < |rects|
    ensures PackBoard(boardWidth, boardHeight, rects[..i + 1], spacing) ==
            PackBoard(boardWidth, boardHeight, rects[..i], spacing) +
            [PlaceIn(FreeSpaces(boardWidth, boardHeight, PackBoard(boardWidth, boardHeight, rects[..i], spacing), spacing),
                     rects[i], i)]
  {
    assert rects[..i + 1][..i] == rects[..i];
  }

  /** Entry `i` of a pass is what placing piece `i` on the board holding the
      entries before it gives. */
  lemma PackBoardAt(boardWidth: int, boardHeight: int, rects: seq<Piece>, spacing: int, i: nat)
    requires i < |rects|
    ensures PackBoard(boardWidth, boardHeight, rects, spacing)[i] ==
            PlaceOne(boardWidth, boardHeight, PackBoard(boardWidth, boardHeight, rects, spacing)[..i],
                     rects[i], i, spacing)
  {
    var step := (done: seq<Placement>, rect: Piece, i: nat) =>
                  PlaceOne(boardWidth, boardHeight, done, rect, i, spacing);
    ScanPrefix(step, rects, i + 1);
    ScanPrefix(step, rects, i);
    var upto := rects[..i + 1];
    assert upto[..i] == rects[..i];
    assert Scan(step, rects)[i] == Scan(step, upto)[i];
  }

  /** `p` keeps clear of `q` grown by the spacing. */
  predicate Apart(p: Placement, q: Placement, spacing: int)
  {
    !Intersects(p.x, p.y, p.width, p.height, q, spacing)
  }

  /** What one step of packing records about its piece: who it is, where a
      failure is parked, which orientations are possible and how `rotated` is
      set, that the as-given orientation is tried first and that a piece fails
      exactly when no space fits it either way. */
  lemma PlaceOneFacts(boardWidth: int, boardHeight: int, placed: seq<Placement>,
                      rect: Piece, i: nat, spacing: int)
    ensures var p := PlaceOne(boardWidth, boardHeight, placed, rect, i, spacing);
            var spaces := FreeSpaces(boardWidth, boardHeight, placed, spacing);
            p.id == rect.id && p.originalId == i &&
            (p.failed ==> p.x == -1 && p.y == -1 && p.width == rect.width &&
                          p.height == rect.height && !p.rotated) &&
            (!p.failed ==> (p.width == rect.width && p.height == rect.height) ||
                           (p.width == rect.height && p.height == rect.width)) &&
            (!p.failed ==> (p.rotated <==> p.width != rect.width)) &&
            ((exists k :: 0 <= k < |spaces| && CanPlaceRectangle(rect.width, rect.height, spaces[k])) ==>
               !p.failed && p.width == rect.width && p.height == rect.height) &&
            (p.failed <==> forall k :: 0 <= k < |spaces| ==>
                             !CanPlaceRectangle(rect.width, rect.height, spaces[k]) &&
                             !CanPlaceRectangle(rect.height, rect.width, spaces[k]))
  {
  }

  /** A placed piece sits, in its as-placed orientation, at the corner of the
      first candidate space it fits in. */
  lemma PlaceOneFirstFit(boardWidth: int, boardHeight: int, placed: seq<Placement>,
                         rect: Piece, i: nat, spacing: int)
    ensures var p := PlaceOne(boardWidth, boardHeight, placed, rect, i, spacing);
            var spaces := FreeSpaces(boardWidth, boardHeight, placed, spacing);
            !p.failed ==> exists k :: (0 <= k < |spaces| &&
              spaces[k].x == p.x && spaces[k].y == p.y && CanPlaceRectangle(p.width, p.height, spaces[k]) &&
              forall j :: 0 <= j < k ==> !CanPlaceRectangle(p.width, p.height, spaces[j]))
  {
  }

  /** A placed piece lies on the board and keeps clear of every piece placed
      before it on the same board. */
  lemma PlaceOneFits(boardWidth: int, boardHeight: int, placed: seq<Placement>,
                     rect: Piece, i: nat, spacing: int)
    ensures var p := PlaceOne(boardWidth, boardHeight, placed, rect, i, spacing);
            !p.failed ==>
              p.x >= 0 && p.y >= 0 && p.x + p.width <= boardWidth && p.y + p.height <= boardHeight &&
              forall q :: q in placed && !q.failed ==> Apart(p, q, spacing)
  {
    var p := PlaceOne(boardWidth, boardHeight, placed, rect, i, spacing);
    var spaces := FreeSpaces(boardWidth, boardHeight, placed, spacing);
    if !p.failed {
      PlaceOneFirstFit(boardWidth, boardHeight, placed, rect, i, spacing);
      var k :| 0 <= k < |spaces| && spaces[k].x == p.x && spaces[k].y == p.y &&
               CanPlaceRectangle(p.width, p.height, spaces[k]);
      var sp := spaces[k];
      FreeSpacesSound(boardWidth, boardHeight, placed, spacing);
      assert sp in spaces;
      var used := Successes(placed);
      FitInClearSpaceIsClear(p.width, p.height, sp, used, spacing);
      forall q | q in placed && !q.failed ensures Apart(p, q, spacing) {
        assert q in used;
        var j :| 0 <= j < |used| && used[j] == q;
        assert !Intersects(sp.x, sp.y, p.width, p.height, used[j], spacing);
      }
    }
  }

  /** A pass has one entry per piece, in order: entry `i` carries piece `i`'s id
      and `originalId = i`; a failed entry is parked at `(-1, -1)` with the
      piece's requested size; a placed one is the piece as given or turned, and
      is marked `rotated` exactly when its width is not the requested width. */
  lemma PackBoardEntries(boardWidth: int, boardHeight: int, rects: seq<Piece>, spacing: int)
    ensures var ps := PackBoard(boardWidth, boardHeight, rects, spacing);
            |ps| == |rects| &&
            forall i :: 0 <= i < |ps| ==>
              ps[i].id == rects[i].id && ps[i].originalId == i &&
              (ps[i].failed ==> ps[i].x == -1 && ps[i].y == -1 && !ps[i].rotated &&
                                ps[i].width == rects[i].width && ps[i].height == rects[i].height) &&
              (!ps[i].failed ==> ((ps[i].width == rects[i].width && ps[i].height == rects[i].height) ||
                                  (ps[i].width == rects[i].height && ps[i].height == rects[i].width)) &&
                                 (ps[i].rotated <==> ps[i].width != rects[i].width))
  {
    var ps := PackBoard(boardWidth, boardHeight, rects, spacing);
    forall i | 0 <= i < |ps|
      ensures ps[i].id == rects[i].id && ps[i].originalId == i
      ensures ps[i].failed ==> ps[i].x == -1 && ps[i].y == -1 && !ps[i].rotated &&
                               ps[i].width == rects[i].width && ps[i].height == rects[i].height
      ensures !ps[i].failed ==> ((ps[i].width == rects[i].width && ps[i].height == rects[i].height) ||
                                 (ps[i].width == rects[i].height && ps[i].height == rects[i].width)) &&
                                (ps[i].rotated <==> ps[i].width != rects[i].width)
    {
      PackBoardAt(boardWidth, boardHeight, rects, spacing, i);
      PlaceOneFacts(boardWidth, boardHeight, ps[..i], rects[i], i, spacing);
    }
  }

  /** A pass produces one entry per piece, with the piece's id, in order. */
  lemma PackBoardIds(boardWidth: int, boardHeight: int, rects: seq<Piece>, spacing: int)
    ensures Ids(PackBoard(boardWidth, boardHeight, rects, spacing)) == PieceIds(rects)
  {
    PackBoardEntries(boardWidth, boardHeight, rects, spacing);
  }

  /** Piece `i` fails exactly when no space left by the pieces before it fits
      it in either orientation, and it is placed as given whenever some space
      fits it as given. */
  lemma PackBoardChoices(boardWidth: int, boardHeight: int, rects: seq<Piece>, spacing: int, i: nat)
    requires i < |rects|
    ensures var ps := PackBoard(boardWidth, boardHeight, rects, spacing);
            var spaces := FreeSpaces(boardWidth, boardHeight, ps[..i], spacing);
            (ps[i].failed <==> forall k :: 0 <= k < |spaces| ==>
                                 !CanPlaceRectangle(rects[i].width, rects[i].height, spaces[k]) &&
                                 !CanPlaceRectangle(rects[i].height, rects[i].width, spaces[k])) &&
            ((exists k :: 0 <= k < |spaces| && CanPlaceRectangle(rects[i].width, rects[i].height, spaces[k])) ==>
               !ps[i].failed && !ps[i].rotated &&
               ps[i].width == rects[i].width && ps[i].height == rects[i].height)
  {
    var ps := PackBoard(boardWidth, boardHeight, rects, spacing);
    PackBoardAt(boardWidth, boardHeight, rects, spacing, i);
    PlaceOneFacts(boardWidth, boardHeight, ps[..i], rects[i], i, spacing);
  }

  /** Every placed entry of a pass lies on the board. */
  lemma PackBoardContained(boardWidth: int, boardHeight: int, rects: seq<Piece>, spacing: int)
    ensures forall p :: p in PackBoard(boardWidth, boardHeight, rects, spacing) && !p.failed ==>
              p.x >= 0 && p.y >= 0 && p.x + p.width <= boardWidth && p.y + p.height <= boardHeight
  {
    var ps := PackBoard(boardWidth, boardHeight, rects, spacing);
    forall p | p in ps && !p.failed
      ensures p.x >= 0 && p.y >= 0 && p.x + p.width <= boardWidth && p.y + p.height <= boardHeight
    {
      var i :| 0 <= i < |ps| && ps[i] == p;
      PackBoardAt(boardWidth, boardHeight, rects, spacing, i);
      PlaceOneFits(boardWidth, boardHeight, ps[..i], rects[i], i, spacing);
    }
  }

  /** Any two different placed entries of a pass keep the spacing between them. */
  lemma PackBoardSeparated(boardWidth: int, boardHeight: int, rects: seq<Piece>, spacing: int)
    ensures forall p, q ::
              (p in PackBoard(boardWidth, boardHeight, rects, spacing) &&
               q in PackBoard(boardWidth, boardHeight, rects, spacing) &&
               p != q && !p.failed && !q.failed) ==> Apart(p, q, spacing)
  {
    var ps := PackBoard(boardWidth, boardHeight, rects, spacing);
    forall p, q | p in ps && q in ps && p != q && !p.failed && !q.failed
      ensures Apart(p, q, spacing)
    {
      var i :| 0 <= i < |ps| && ps[i] == p;
      var j :| 0 <= j < |ps| && ps[j] == q;
      if j < i {
        EarlierIsApart(boardWidth, boardHeight, rects, spacing, i, j);
      } else {
        assert i < j;
        EarlierIsApart(boardWidth, boardHeight, rects, spacing, j, i);
        IntersectsSymmetric(p, q, spacing);
      }
    }
  }

  lemma EarlierIsApart(boardWidth: int, boardHeight: int, rects: seq<Piece>, spacing: int, i: nat, j: nat)
    requires j < i < |rects|
    requires !PackBoard(boardWidth, boardHeight, rects, spacing)[i].failed
    requires !PackBoard(boardWidth, boardHeight, rects, spacing)[j].failed
    ensures Apart(PackBoard(boardWidth, boardHeight, rects, spacing)[i],
                  PackBoard(boardWidth, boardHeight, rects, spacing)[j], spacing)
  {
    var ps := PackBoard(boardWidth, boardHeight, rects, spacing);
    PackBoardAt(boardWidth, boardHeight, rects, spacing, i);
    PlaceOneFits(boardWidth, boardHeight, ps[..i], rects[i], i, spacing);
    assert ps[..i][j] == ps[j];
  }
}
