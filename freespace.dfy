/** Free-space discovery (`getFreeSpaces`, script.js:262-299): the candidate
    regions a board offers to the next piece, given what is already on it. */
module FreeSpace {
  import opened Rects
  import opened Overlap
  import opened AreaSort

  type Point = (int, int)

  /** The anchors the placed pieces propose, two per piece in placement order:
      right of the piece and below it, each past the clearance (script.js:277-281). */
  function Anchors(used: seq<Placement>, spacing: int): seq<Point>
  {
    if used == [] then []
    else
      var p := used[|used| - 1];
      Anchors(used[..|used| - 1], spacing) +
        [(p.x + p.width + spacing, p.y), (p.x, p.y + p.height + spacing)]
  }

  /** Piece `k` proposes anchors `2k` (right of it) and `2k + 1` (below it). */
  lemma {:induction false} AnchorsAt(used: seq<Placement>, spacing: int, k: nat)
    requires k < |used|
    ensures |Anchors(used, spacing)| == 2 * |used|
    ensures Anchors(used, spacing)[2 * k] == (used[k].x + used[k].width + spacing, used[k].y)
    ensures Anchors(used, spacing)[2 * k + 1] == (used[k].x, used[k].y + used[k].height + spacing)
  {
    var init := used[..|used| - 1];
    if k < |used| - 1 {
      AnchorsAt(init, spacing, k);
    } else if init != [] {
      AnchorsAt(init, spacing, 0);
    }
  }

  /** The points of `xs` in the order they were first added, each once: the
      iteration order of a JavaScript `Set` filled from `xs`. */
  function Dedup(xs: seq<Point>): seq<Point>
  {
    if xs == [] then []
    else
      var d := Dedup(xs[..|xs| - 1]);
      if xs[|xs| - 1] in d then d else d + [xs[|xs| - 1]]
  }

  /** The set holds every point added to it, each exactly once. */
  lemma {:induction false} DedupSpec(xs: seq<Point>)
    ensures forall a :: a in Dedup(xs) <==> a in xs
    ensures forall i, j :: 0 <= i < j < |Dedup(xs)| ==> Dedup(xs)[i] != Dedup(xs)[j]
  {
    if xs != [] {
      var init := xs[..|xs| - 1];
      assert xs == init + [xs[|xs| - 1]];
      DedupSpec(init);
    }
  }

  /** The anchor set: the board corner, then every placed piece's two anchors. */
  function Positions(used: seq<Placement>, spacing: int): seq<Point>
  {
    Dedup([(0, 0)] + Anchors(used, spacing))
  }

  /** The region from anchor `a` to the board's far corner. */
  function RegionAt(a: Point, boardWidth: int, boardHeight: int): Space
  {
    Space(a.0, a.1, boardWidth - a.0, boardHeight - a.1)
  }

  /** Anchor `a` lies on the board and its region keeps clear of every placed
      piece (script.js:285-289). */
  predicate Admissible(a: Point, boardWidth: int, boardHeight: int,
                       used: seq<Placement>, spacing: int)
  {
    a.0 >= 0 && a.1 >= 0 && a.0 < boardWidth && a.1 < boardHeight &&
    boardWidth - a.0 > 0 && boardHeight - a.1 > 0 &&
    !IsOverlapping(a.0, a.1, boardWidth - a.0, boardHeight - a.1, used, spacing)
  }

  /** The regions of the admissible anchors, in anchor order. */
  function Candidates(anchors: seq<Point>, boardWidth: int, boardHeight: int,
                      used: seq<Placement>, spacing: int): seq<Space>
  {
    if anchors == [] then []
    else
      var a := anchors[|anchors| - 1];
      Candidates(anchors[..|anchors| - 1], boardWidth, boardHeight, used, spacing) +
        (if Admissible(a, boardWidth, boardHeight, used, spacing)
         then [RegionAt(a, boardWidth, boardHeight)] else [])
  }

  /** The candidates are exactly the regions of the admissible anchors. */
  lemma {:induction false} CandidatesSpec(anchors: seq<Point>, boardWidth: int, boardHeight: int,
                                          used: seq<Placement>, spacing: int, sp: Space)
    ensures sp in Candidates(anchors, boardWidth, boardHeight, used, spacing) <==>
              (sp.x, sp.y) in anchors && Admissible((sp.x, sp.y), boardWidth, boardHeight, used, spacing) &&
              sp == RegionAt((sp.x, sp.y), boardWidth, boardHeight)
  {
    if anchors != [] {
      var init := anchors[..|anchors| - 1];
      assert anchors == init + [anchors[|anchors| - 1]];
      CandidatesSpec(init, boardWidth, boardHeight, used, spacing, sp);
    }
  }

  /** What `getFreeSpaces` returns: the whole board while nothing has been tried
      on it, otherwise the regions of the admissible anchors, largest first. */
  function FreeSpaces(boardWidth: int, boardHeight: int, placements: seq<Placement>,
                      spacing: int): seq<Space>
  {
    if |placements| == 0 then [Space(0, 0, boardWidth, boardHeight)]
    else
      var used := Successes(placements);
      SortByArea(Candidates(Positions(used, spacing), boardWidth, boardHeight, used, spacing))
  }

  /** The anchor loop of `getFreeSpaces` (script.js:274-281): a `Set` seeded
      with the board corner, to which each placed piece adds its two anchors. */
  method CollectPositions(usedRects: seq<Placement>, spacing: int) returns (positions: seq<Point>)
    ensures positions == Positions(usedRects, spacing)
  {
    positions := [(0, 0)];
    assert [(0, 0)] + Anchors(usedRects[..0], spacing) == [(0, 0)];
    assert [(0, 0)] == [] + [(0, 0)];
    for i := 0 to |usedRects|
      invariant positions == Dedup([(0, 0)] + Anchors(usedRects[..i], spacing))
    {
      var rect := usedRects[i];
      ghost var before := [(0, 0)] + Anchors(usedRects[..i], spacing);
      var right := (rect.x + rect.width + spacing, rect.y);
      if right !in positions {
        positions := positions + [right];
      }
      assert positions == Dedup(before + [right]) by {
        assert (before + [right])[..|before|] == before;
      }
      var below := (rect.x, rect.y + rect.height + spacing);
      if below !in positions {
        positions := positions + [below];
      }
      assert positions == Dedup(before + [right] + [below]) by {
        assert (before + [right] + [below])[..|before| + 1] == before + [right];
      }
      assert usedRects[..i + 1][..i] == usedRects[..i];
      assert before + [right] + [below] == [(0, 0)] + Anchors(usedRects[..i + 1], spacing);
    }
    assert usedRects[..|usedRects|] == usedRects;
  }

  /** The region loop of `getFreeSpaces` (script.js:283-293): each anchor on the
      board whose region keeps clear of the placed pieces yields that region. */
  method AdmissibleRegions(positions: seq<Point>, boardWidth: int, boardHeight: int,
                           usedRects: seq<Placement>, spacing: int) returns (spaces: seq<Space>)
    ensures spaces == Candidates(positions, boardWidth, boardHeight, usedRects, spacing)
  {
    spaces := [];
    for k := 0 to |positions|
      invariant spaces == Candidates(positions[..k], boardWidth, boardHeight, usedRects, spacing)
    {
      var x, y := positions[k].0, positions[k].1;
      assert positions[..k + 1][..k] == positions[..k];
      if x >= 0 && y >= 0 && x < boardWidth && y < boardHeight {
        var width := boardWidth - x;
        var height := boardHeight - y;
        if width > 0 && height > 0 && !IsOverlapping(x, y, width, height, usedRects, spacing) {
          spaces := spaces + [Space(x, y, width, height)];
        }
      }
    }
    assert positions[..|positions|] == positions;
  }

  /** `getFreeSpaces` (script.js:262-299): the whole board while nothing has
      been tried on it; otherwise the admissible regions, sorted by area. */
  method GetFreeSpaces(boardWidth: int, boardHeight: int, placements: seq<Placement>, spacing: int)
    returns (spaces: seq<Space>)
    ensures |placements| == 0 ==> spaces == [Space(0, 0, boardWidth, boardHeight)]
    ensures spaces == FreeSpaces(boardWidth, boardHeight, placements, spacing)
  {
    if |placements| == 0 {
      return [Space(0, 0, boardWidth, boardHeight)];
    }
    var usedRects := Successes(placements);
    var positions := CollectPositions(usedRects, spacing);
    var found := AdmissibleRegions(positions, boardWidth, boardHeight, usedRects, spacing);
    spaces := SortByArea(found);
  }

  /** A space is returned, once a piece has been tried on the board, exactly
      when it is one of the candidates. */
  lemma FreeSpacesAreCandidates(boardWidth: int, boardHeight: int, placements: seq<Placement>,
                                spacing: int, sp: Space)
    requires |placements| > 0
    ensures sp in FreeSpaces(boardWidth, boardHeight, placements, spacing) <==>
              sp in Candidates(Positions(Successes(placements), spacing), boardWidth, boardHeight,
                               Successes(placements), spacing)
  {
    var used := Successes(placements);
    var c := Candidates(Positions(used, spacing), boardWidth, boardHeight, used, spacing);
    SortByAreaCorrect(c);
    assert sp in SortByArea(c) <==> sp in multiset(SortByArea(c));
    assert sp in c <==> sp in multiset(c);
  }

  /** Every returned space starts on the board at a non-negative corner, reaches
      the board's far edges and keeps clear of every placed piece; it is a
      non-empty region whenever some piece has been tried on the board, or the
      board itself is non-empty. */
  lemma FreeSpacesSound(boardWidth: int, boardHeight: int, placements: seq<Placement>, spacing: int)
    ensures forall sp :: sp in FreeSpaces(boardWidth, boardHeight, placements, spacing) ==>
              sp.x >= 0 && sp.y >= 0 &&
              sp.width == boardWidth - sp.x && sp.height == boardHeight - sp.y &&
              !IsOverlapping(sp.x, sp.y, sp.width, sp.height, Successes(placements), spacing) &&
              (|placements| > 0 || (boardWidth > 0 && boardHeight > 0) ==>
                 sp.x < boardWidth && sp.y < boardHeight && sp.width > 0 && sp.height > 0)
  {
    if |placements| > 0 {
      var used := Successes(placements);
      forall sp | sp in FreeSpaces(boardWidth, boardHeight, placements, spacing)
        ensures sp.x >= 0 && sp.y >= 0 && sp.x < boardWidth && sp.y < boardHeight
        ensures sp.width == boardWidth - sp.x && sp.height == boardHeight - sp.y
        ensures sp.width > 0 && sp.height > 0
        ensures !IsOverlapping(sp.x, sp.y, sp.width, sp.height, used, spacing)
      {
        FreeSpacesAreCandidates(boardWidth, boardHeight, placements, spacing, sp);
        CandidatesSpec(Positions(used, spacing), boardWidth, boardHeight, used, spacing, sp);
      }
    }
  }

  /** Once a piece has been tried on the board, the returned spaces are exactly
      the regions of the admissible anchors: the corner `(0, 0)` and the two
      anchors of every placed piece. */
  lemma FreeSpacesComplete(boardWidth: int, boardHeight: int, placements: seq<Placement>,
                           spacing: int, sp: Space)
    requires |placements| > 0
    ensures sp in FreeSpaces(boardWidth, boardHeight, placements, spacing) <==>
              (sp.x, sp.y) in [(0, 0)] + Anchors(Successes(placements), spacing) &&
              Admissible((sp.x, sp.y), boardWidth, boardHeight, Successes(placements), spacing) &&
              sp == RegionAt((sp.x, sp.y), boardWidth, boardHeight)
  {
    var used := Successes(placements);
    FreeSpacesAreCandidates(boardWidth, boardHeight, placements, spacing, sp);
    CandidatesSpec(Positions(used, spacing), boardWidth, boardHeight, used, spacing, sp);
    DedupSpec([(0, 0)] + Anchors(used, spacing));
  }

  /** The spaces come largest first; spaces of equal area keep the order of
      their anchors, which is the order the anchors were first added. */
  lemma FreeSpacesOrdered(boardWidth: int, boardHeight: int, placements: seq<Placement>, spacing: int)
    requires |placements| > 0
    ensures SortedByArea(FreeSpaces(boardWidth, boardHeight, placements, spacing))
    ensures forall a :: WithArea(FreeSpaces(boardWidth, boardHeight, placements, spacing), a) ==
              WithArea(Candidates(Positions(Successes(placements), spacing), boardWidth, boardHeight,
                                  Successes(placements), spacing), a)
  {
    var used := Successes(placements);
    SortByAreaCorrect(Candidates(Positions(used, spacing), boardWidth, boardHeight, used, spacing));
  }

  /** Adding points never reorders the set: the anchors already present keep
      their places and the new ones follow. */
  lemma {:induction false} DedupExtends(xs: seq<Point>, ys: seq<Point>)
    ensures |Dedup(xs)| <= |Dedup(xs + ys)|
    ensures Dedup(xs + ys)[..|Dedup(xs)|] == Dedup(xs)
    decreases |ys|
  {
    if ys == [] {
      assert xs + ys == xs;
    } else {
      var init := ys[..|ys| - 1];
      assert (xs + ys)[..|xs + ys| - 1] == xs + init;
      DedupExtends(xs, init);
    }
  }
}
