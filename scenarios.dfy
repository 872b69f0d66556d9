/** Worked examples of the whole engine on small inputs, each stated as the
    exact record stream `packMultipleBoards` returns. */
module Scenarios {
  import opened Rects
  import opened Overlap
  import opened FreeSpace
  import opened Packer
  import opened Boards

  /** One `400 × 300` piece on one `1000 × 500` board goes to the board's
      corner, as given. */
  lemma SinglePiece()
    ensures PackAll(1000, 500, 1, false, [Piece(400, 300, 0)], CutSpacing) ==
            [Record(Placement(0, 0, 400, 300, 0, 0, false, false), Some(1), false)]
  {
    var pass := Board(1000, 500, CutSpacing);
    assert Remaining(pass, 0, [Piece(400, 300, 0)]) == [Piece(400, 300, 0)];
    PackBoardAt(1000, 500, [Piece(400, 300, 0)], CutSpacing, 0);
    assert BoardPass(pass, 1, [Piece(400, 300, 0)]) == [Placement(0, 0, 400, 300, 0, 0, false, false)];
  }

  /** A `150 × 50` piece fits a `100 × 100` board in neither orientation; with
      no partial board it is left over, parked at `(-1, -1)` and carries no
      board number. */
  lemma OversizedPiece()
    ensures PackAll(100, 100, 1, false, [Piece(150, 50, 0)], CutSpacing) ==
            [Record(Placement(-1, -1, 150, 50, 0, 0, false, true), None, false)]
  {
    var pass := Board(100, 100, CutSpacing);
    assert Remaining(pass, 0, [Piece(150, 50, 0)]) == [Piece(150, 50, 0)];
    PackBoardAt(100, 100, [Piece(150, 50, 0)], CutSpacing, 0);
    assert BoardPass(pass, 1, [Piece(150, 50, 0)]) == [Placement(-1, -1, 150, 50, 0, 0, false, true)];
  }

  /** A piece covering the whole `1000 × 500` board leaves no free space: its
      two anchors lie off the board and the corner is taken. */
  lemma FilledBoardHasNoSpace()
    ensures FreeSpaces(1000, 500, [Placement(0, 0, 1000, 500, 0, 0, false, false)], CutSpacing) == []
  {
    var first := Placement(0, 0, 1000, 500, 0, 0, false, false);
    assert Successes([first]) == [first];
    assert Anchors([first], CutSpacing) == [(1003, 0), (0, 503)];
    var xs := [(0, 0)] + Anchors([first], CutSpacing);
    assert xs == [(0, 0), (1003, 0), (0, 503)];
    assert xs[..1] == [(0, 0)] && xs[..2] == [(0, 0), (1003, 0)];
    assert Dedup(xs[..1]) == [(0, 0)];
    assert Dedup(xs[..2]) == [(0, 0), (1003, 0)];
    var anchors := Dedup(xs);
    assert anchors == xs;
    assert Intersects(0, 0, 1000, 500, first, CutSpacing);
    assert anchors[..1] == [(0, 0)] && anchors[..2] == [(0, 0), (1003, 0)];
    assert Candidates(anchors[..1], 1000, 500, [first], CutSpacing) == [];
    assert Candidates(anchors[..2], 1000, 500, [first], CutSpacing) == [];
  }

  /** On a `1000 × 500` board, a piece that fills it is placed and the next
      piece fails. */
  lemma FullBoardThenFailure()
    ensures PackBoard(1000, 500, [Piece(1000, 500, 0), Piece(400, 200, 1)], CutSpacing) ==
            [Placement(0, 0, 1000, 500, 0, 0, false, false), Placement(-1, -1, 400, 200, 1, 1, false, true)]
  {
    var rects := [Piece(1000, 500, 0), Piece(400, 200, 1)];
    var first := Placement(0, 0, 1000, 500, 0, 0, false, false);
    PackBoardAt(1000, 500, rects, CutSpacing, 0);
    PackBoardAt(1000, 500, rects, CutSpacing, 1);
    var ps := PackBoard(1000, 500, rects, CutSpacing);
    assert ps[0] == first;
    assert ps[..1] == [first];
    FilledBoardHasNoSpace();
  }

  /** The `400 × 200` piece fits the corner of the empty half-height board. */
  lemma PieceOnHalfBoard()
    ensures PackBoard(1000, 250, [Piece(400, 200, 1)], CutSpacing) == [Placement(0, 0, 400, 200, 1, 0, false, false)]
  {
    PackBoardAt(1000, 250, [Piece(400, 200, 1)], CutSpacing, 0);
  }

  /** With `numBoards = 1.5`, a piece that fills the first board pushes the
      next one onto the half-height (`250`) board, where it is placed at the
      corner, tagged with board `2` and flagged partial; its `originalId` is
      its index in that pass, while its `id` is kept. */
  lemma OverflowToPartialBoard()
    ensures PackAll(1000, 500, 1, true, [Piece(1000, 500, 0), Piece(400, 200, 1)], CutSpacing) ==
            [Record(Placement(0, 0, 1000, 500, 0, 0, false, false), Some(1), false),
             Record(Placement(0, 0, 400, 200, 1, 0, false, false), Some(2), true)]
  {
    var rects := [Piece(1000, 500, 0), Piece(400, 200, 1)];
    var pass := Board(1000, 500, CutSpacing);
    assert Remaining(pass, 0, rects) == rects;
    FullBoardThenFailure();
    assert Remaining(pass, 1, rects) == [Piece(400, 200, 1)];
    PieceOnHalfBoard();
    assert PartialBoard(1000, 500, 1, rects, CutSpacing) == [Placement(0, 0, 400, 200, 1, 0, false, false)];
  }
}
