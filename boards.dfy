/** The multi-board driver (`packMultipleBoards`, script.js:138-199): full-size
    passes, then at most one half-height pass, with only each pass's failures
    carried to the next. */
module Boards {
  import opened Rects
  import opened Overlap
  import opened Packer

  /** One record of the final stream: a single-board entry tagged with its
      board. `boardNumber` is absent on the pieces left over when there is no
      partial board; `isPartial` is set only on pieces placed on the partial
      board (the source leaves the field out elsewhere). */
  datatype Record = Record(placement: Placement, boardNumber: Option<nat>, isPartial: bool)

  /** `ps.forEach(p => all.push({ ...p, boardNumber: board, isPartial: partial }))`. */
  function Tag(ps: seq<Placement>, board: nat, partial: bool): (r: seq<Record>)
    ensures |r| == |ps|
    ensures forall k :: 0 <= k < |ps| ==> r[k] == Record(ps[k], Some(board), partial)
  {
    if ps == [] then []
    else Tag(ps[..|ps| - 1], board, partial) + [Record(ps[|ps| - 1], Some(board), partial)]
  }

  /** The pieces carried to the next pass: each failure's width, height and id
      (script.js:159-164). */
  function Carry(failed: seq<Placement>): (r: seq<Piece>)
    ensures |r| == |failed|
    ensures forall k :: 0 <= k < |failed| ==>
              r[k] == Piece(failed[k].width, failed[k].height, failed[k].id)
  {
    if failed == [] then []
    else
      var f := failed[|failed| - 1];
      Carry(failed[..|failed| - 1]) + [Piece(f.width, f.height, f.id)]
  }

  /** The final failure records when there is no partial board: parked at
      `(-1, -1)`, with no board number (script.js:185-195). */
  function Unplaced(failed: seq<Placement>): (r: seq<Record>)
    ensures |r| == |failed|
    ensures forall k :: 0 <= k < |failed| ==>
              r[k] == Record(Placement(-1, -1, failed[k].width, failed[k].height, failed[k].id,
                                       failed[k].originalId, false, true), None, false)
  {
    if failed == [] then []
    else
      var f := failed[|failed| - 1];
      Unplaced(failed[..|failed| - 1]) +
        [Record(Placement(-1, -1, f.width, f.height, f.id, f.originalId, false, true), None, false)]
  }

  function RecordIds(rs: seq<Record>): (r: seq<nat>)
    ensures |r| == |rs|
    ensures forall k :: 0 <= k < |rs| ==> r[k] == rs[k].placement.id
  {
    if rs == [] then [] else RecordIds(rs[..|rs| - 1]) + [rs[|rs| - 1].placement.id]
  }

  /** One single-board pass: the entries produced for a list of pieces. */
  type Pass = seq<Piece> -> seq<Placement>

  /** `packRectangles` on a `boardWidth × boardHeight` board. */
  function Board(boardWidth: int, boardHeight: int, spacing: int): Pass
  {
    (rs: seq<Piece>) => PackBoard(boardWidth, boardHeight, rs, spacing)
  }

  /** The pieces still to place after `k` passes of `pass`. */
  function Remaining(pass: Pass, k: nat, rects: seq<Piece>): seq<Piece>
  {
    if k == 0 then rects else Carry(Failures(pass(Remaining(pass, k - 1, rects))))
  }

  /** The entries of full board `k` (numbered from 1). */
  function BoardPass(pass: Pass, k: nat, rects: seq<Piece>): seq<Placement>
    requires k >= 1
  {
    pass(Remaining(pass, k - 1, rects))
  }

  /** The records of the first `k` full boards: each board's placed pieces. */
  function FullRecords(pass: Pass, k: nat, rects: seq<Piece>): seq<Record>
  {
    if k == 0 then []
    else FullRecords(pass, k - 1, rects) + Tag(Successes(BoardPass(pass, k, rects)), k, false)
  }

  /** The entries of the partial board: the pieces left after the full
      boards, packed on a board of half the height. */
  function PartialBoard(boardWidth: int, boardHeight: int, fullBoards: nat,
                        rects: seq<Piece>, spacing: int): seq<Placement>
  {
    PackBoard(boardWidth, boardHeight / 2, Remaining(Board(boardWidth, boardHeight, spacing), fullBoards, rects),
              spacing)
  }

  /** What `packMultipleBoards` returns for `numBoards = fullBoards` (plus a
      fraction when `hasPartial`). */
  function PackAll(boardWidth: int, boardHeight: int, fullBoards: nat, hasPartial: bool,
                   rects: seq<Piece>, spacing: int): seq<Record>
    requires fullBoards > 0 || hasPartial
  {
    var pass := Board(boardWidth, boardHeight, spacing);
    var full := FullRecords(pass, fullBoards, rects);
    var rest := Remaining(pass, fullBoards, rects);
    if hasPartial && |rest| > 0 then
      var ps := PartialBoard(boardWidth, boardHeight, fullBoards, rects, spacing);
      full + Tag(Successes(ps), fullBoards + 1, true) + Tag(Failures(ps), fullBoards + 1, false)
    else if |rest| > 0 then
      full + Unplaced(Failures(BoardPass(pass, fullBoards, rects)))
    else full
  }

  lemma PackAllCases(boardWidth: int, boardHeight: int, fullBoards: nat, hasPartial: bool,
                     rects: seq<Piece>, spacing: int)
    requires fullBoards > 0 || hasPartial
    ensures var pass := Board(boardWidth, boardHeight, spacing);
            var full := FullRecords(pass, fullBoards, rects);
            var rest := Remaining(pass, fullBoards, rects);
            var ps := PartialBoard(boardWidth, boardHeight, fullBoards, rects, spacing);
            var all := PackAll(boardWidth, boardHeight, fullBoards, hasPartial, rects, spacing);
            (hasPartial && |rest| > 0 ==>
               all == full + Tag(Successes(ps), fullBoards + 1, true) + Tag(Failures(ps), fullBoards + 1, false)) &&
            (!hasPartial && |rest| > 0 ==> all == full + Unplaced(Failures(BoardPass(pass, fullBoards, rects)))) &&
            (|rest| == 0 ==> all == full)
  {
  }

  /** `all.push(...)` of every entry of `ps`, tagged with `board` (script.js:154-157, 170-181). */
  method PushTagged(all: seq<Record>, ps: seq<Placement>, board: nat, partial: bool)
    returns (r: seq<Record>)
    ensures r == all + Tag(ps, board, partial)
  {
    r := all;
    for j := 0 to |ps|
      invariant r == all + Tag(ps[..j], board, partial)
    {
      r := r + [Record(ps[j], Some(board), partial)];
      assert ps[..j + 1][..j] == ps[..j];
    }
    assert ps[..|ps|] == ps;
  }

  /** `all.push(...)` of a failure record for every piece left over (script.js:185-195). */
  method PushUnplaced(all: seq<Record>, carried: seq<Placement>) returns (r: seq<Record>)
    ensures r == all + Unplaced(carried)
  {
    r := all;
    for j := 0 to |carried|
      invariant r == all + Unplaced(carried[..j])
    {
      var rect := carried[j];
      r := r + [Record(Placement(-1, -1, rect.width, rect.height, rect.id, rect.originalId, false, true),
                       None, false)];
      assert carried[..j + 1][..j] == carried[..j];
    }
    assert carried[..|carried|] == carried;
  }

  lemma RemainingStep(pass: Pass, k: nat, rects: seq<Piece>)
    ensures Remaining(pass, k + 1, rects) == Carry(Failures(BoardPass(pass, k + 1, rects)))
    ensures FullRecords(pass, k + 1, rects) ==
            FullRecords(pass, k, rects) + Tag(Successes(BoardPass(pass, k + 1, rects)), k + 1, false)
  {
  }

  lemma RemainingAt(pass: Pass, k: nat, rects: seq<Piece>)
    requires k >= 1
    ensures Remaining(pass, k, rects) == Carry(Failures(BoardPass(pass, k, rects)))
  {
  }

  /** The full-board loop of `packMultipleBoards` (script.js:147-165): the
      records of the first `fullBoards` boards, the pieces still to place, and
      the failure entries of the last pass, which the carried pieces were
      mapped from and which supply their `originalId`. */
  method FullPasses(boardWidth: int, boardHeight: int, fullBoards: nat,
                    rectangles: seq<Piece>, spacing: int)
    returns (allPlacements: seq<Record>, remainingRects: seq<Piece>, carried: seq<Placement>)
    ensures var pass := Board(boardWidth, boardHeight, spacing);
            allPlacements == FullRecords(pass, fullBoards, rectangles) &&
            remainingRects == Remaining(pass, fullBoards, rectangles) &&
            (fullBoards > 0 ==> carried == Failures(BoardPass(pass, fullBoards, rectangles)))
  {
    ghost var pass := Board(boardWidth, boardHeight, spacing);
    allPlacements := [];
    remainingRects := rectangles;
    carried := [];
    for boardIdx := 0 to fullBoards
      invariant allPlacements == FullRecords(pass, boardIdx, rectangles)
      invariant remainingRects == Remaining(pass, boardIdx, rectangles)
      invariant boardIdx > 0 ==> carried == Failures(BoardPass(pass, boardIdx, rectangles))
    {
      var boardPlacements := PackRectangles(boardWidth, boardHeight, remainingRects, spacing);
      assert boardPlacements == BoardPass(pass, boardIdx + 1, rectangles);
      allPlacements := PushTagged(allPlacements, Successes(boardPlacements), boardIdx + 1, false);
      carried := Failures(boardPlacements);
      remainingRects := Carry(carried);
      RemainingStep(pass, boardIdx, rectangles);
    }
  }

  /** The partial board of `packMultipleBoards` (script.js:167-183): the
      remaining pieces packed at half height, the placed ones tagged as
      partial and the failures after them. */
  method PartialPass(all: seq<Record>, boardWidth: int, partialHeight: int, fullBoards: nat,
                     remainingRects: seq<Piece>, spacing: int)
    returns (r: seq<Record>)
    ensures var ps := PackBoard(boardWidth, partialHeight, remainingRects, spacing);
            r == all + Tag(Successes(ps), fullBoards + 1, true) + Tag(Failures(ps), fullBoards + 1, false)
  {
    var boardPlacements := PackRectangles(boardWidth, partialHeight, remainingRects, spacing);
    r := PushTagged(all, Successes(boardPlacements), fullBoards + 1, true);
    r := PushTagged(r, Failures(boardPlacements), fullBoards + 1, false);
  }

  /** `packMultipleBoards`. `numBoards` is given as its whole part `fullBoards`
      and whether it has a fractional part (`hasPartial`); the caller admits
      only `numBoards > 0` (script.js:336-339). `Math.floor(boardHeight / 2)`
      is `boardHeight / 2`: division by a positive number rounds down. */
  method PackMultipleBoards(boardWidth: int, boardHeight: int, fullBoards: nat, hasPartial: bool,
                            rectangles: seq<Piece>, spacing: int)
    returns (allPlacements: seq<Record>)
    requires fullBoards > 0 || hasPartial
    ensures allPlacements == PackAll(boardWidth, boardHeight, fullBoards, hasPartial, rectangles, spacing)
  {
    var remainingRects, carried;
    allPlacements, remainingRects, carried := FullPasses(boardWidth, boardHeight, fullBoards, rectangles, spacing);
    if hasPartial && |remainingRects| > 0 {
      var partialHeight := boardHeight / 2;
      allPlacements := PartialPass(allPlacements, boardWidth, partialHeight, fullBoards, remainingRects, spacing);
      PackAllCases(boardWidth, boardHeight, fullBoards, hasPartial, rectangles, spacing);
    } else if |remainingRects| > 0 {
      allPlacements := PushUnplaced(allPlacements, carried);
    }
  }


  // ---------------------------------------------------------------------
  // Properties of the multi-board result

  lemma RecordIdsAppend(a: seq<Record>, b: seq<Record>)
    ensures RecordIds(a + b) == RecordIds(a) + RecordIds(b)
  {
  }

  lemma TagIds(ps: seq<Placement>, board: nat, partial: bool)
    ensures RecordIds(Tag(ps, board, partial)) == Ids(ps)
  {
  }

  lemma UnplacedIds(ps: seq<Placement>)
    ensures RecordIds(Unplaced(ps)) == Ids(ps)
  {
  }

  lemma CarryIds(ps: seq<Placement>)
    ensures PieceIds(Carry(ps)) == Ids(ps)
  {
  }

  /** A pass that gives every piece one entry, with the piece's id, in order. */
  ghost predicate KeepsIds(pass: Pass)
  {
    forall rs :: Ids(Entries(pass, rs)) == PieceIds(rs)
  }

  /** The entries `pass` produces for `rs`: `pass(rs)` under a name, so that
      quantifiers over passes have a function term to trigger on. */
  function Entries(pass: Pass, rs: seq<Piece>): seq<Placement>
  {
    pass(rs)
  }

  lemma BoardKeepsIds(boardWidth: int, boardHeight: int, spacing: int)
    ensures KeepsIds(Board(boardWidth, boardHeight, spacing))
  {
    forall rs ensures Ids(Entries(Board(boardWidth, boardHeight, spacing), rs)) == PieceIds(rs) {
      PackBoardIds(boardWidth, boardHeight, rs, spacing);
    }
  }

  /** An entry of a pass carries the id of one of the pieces given to it. */
  lemma EntryIdFromPass(ps: seq<Placement>, rects: seq<Piece>, p: Placement)
    requires Ids(ps) == PieceIds(rects)
    requires p in ps
    ensures p.id in PieceIds(rects)
  {
    var i :| 0 <= i < |ps| && ps[i] == p;
    assert Ids(ps)[i] == p.id;
  }

  /** One pass, seen from the ids: the placed entries go to the records, the
      failed ones to the pieces carried on, and nothing else changes. */
  lemma PassConserves(records: seq<Record>, before: seq<Piece>, ps: seq<Placement>, board: nat,
                      partial: bool)
    requires Ids(ps) == PieceIds(before)
    ensures multiset(RecordIds(records + Tag(Successes(ps), board, partial))) +
            multiset(Ids(Failures(ps))) ==
            multiset(RecordIds(records)) + multiset(PieceIds(before))
  {
    SplitIds(ps);
    RecordIdsAppend(records, Tag(Successes(ps), board, partial));
    TagIds(Successes(ps), board, partial);
  }

  /** Each full pass splits its input between the records of its board and the
      pieces carried on: no piece is lost or duplicated. */
  lemma {:induction false} FullRecordsConserve(pass: Pass, k: nat, rects: seq<Piece>)
    requires KeepsIds(pass)
    ensures multiset(RecordIds(FullRecords(pass, k, rects))) + multiset(PieceIds(Remaining(pass, k, rects))) ==
            multiset(PieceIds(rects))
  {
    if k > 0 {
      var j := k - 1;
      FullRecordsConserve(pass, j, rects);
      RemainingStep(pass, j, rects);
      var before := Remaining(pass, j, rects);
      var ps := BoardPass(pass, k, rects);
      var records := FullRecords(pass, j, rects);
      assert Entries(pass, before) == ps;
      PassConserves(records, before, ps, k, false);
      CarryIds(Failures(ps));
    }
  }

  /** The partial board splits the pieces left after the full boards between
      its placed records and its failure records. */
  lemma ConservesWithPartial(full: seq<Record>, rest: seq<Piece>, ps: seq<Placement>,
                             rects: seq<Piece>, board: nat)
    requires multiset(RecordIds(full)) + multiset(PieceIds(rest)) == multiset(PieceIds(rects))
    requires Ids(ps) == PieceIds(rest)
    ensures multiset(RecordIds(full + Tag(Successes(ps), board, true) + Tag(Failures(ps), board, false))) ==
            multiset(PieceIds(rects))
  {
    PassConserves(full, rest, ps, board, true);
    var placed := full + Tag(Successes(ps), board, true);
    RecordIdsAppend(placed, Tag(Failures(ps), board, false));
    TagIds(Failures(ps), board, false);
  }

  /** Without a partial board, the pieces left over become failure records. */
  lemma ConservesUnplaced(full: seq<Record>, rest: seq<Piece>, fs: seq<Placement>, rects: seq<Piece>)
    requires multiset(RecordIds(full)) + multiset(PieceIds(rest)) == multiset(PieceIds(rects))
    requires rest == Carry(fs)
    ensures multiset(RecordIds(full + Unplaced(fs))) == multiset(PieceIds(rects))
  {
    CarryIds(fs);
    RecordIdsAppend(full, Unplaced(fs));
    UnplacedIds(fs);
  }

  /** When nothing is left over, the full boards hold every piece. */
  lemma ConservesDone(full: seq<Record>, rest: seq<Piece>, rects: seq<Piece>)
    requires multiset(RecordIds(full)) + multiset(PieceIds(rest)) == multiset(PieceIds(rects))
    requires |rest| == 0
    ensures multiset(RecordIds(full)) == multiset(PieceIds(rects))
  {
    assert multiset(PieceIds(rest)) == multiset{};
  }

  lemma SameLength(a: seq<nat>, b: seq<nat>)
    requires multiset(a) == multiset(b)
    ensures |a| == |b|
  {
    assert |multiset(a)| == |a| && |multiset(b)| == |b|;
  }

  /** `packMultipleBoards` returns exactly one record per requested piece: the
      ids of the result are those of the input, with their multiplicities. */
  lemma PackAllConserves(boardWidth: int, boardHeight: int, fullBoards: nat, hasPartial: bool,
                         rects: seq<Piece>, spacing: int)
    requires fullBoards > 0 || hasPartial
    ensures |PackAll(boardWidth, boardHeight, fullBoards, hasPartial, rects, spacing)| == |rects|
    ensures multiset(RecordIds(PackAll(boardWidth, boardHeight, fullBoards, hasPartial, rects, spacing))) ==
            multiset(PieceIds(rects))
  {
    var pass := Board(boardWidth, boardHeight, spacing);
    var all := PackAll(boardWidth, boardHeight, fullBoards, hasPartial, rects, spacing);
    PackAllCases(boardWidth, boardHeight, fullBoards, hasPartial, rects, spacing);
    BoardKeepsIds(boardWidth, boardHeight, spacing);
    FullRecordsConserve(pass, fullBoards, rects);
    var full := FullRecords(pass, fullBoards, rects);
    var rest := Remaining(pass, fullBoards, rects);
    if hasPartial && |rest| > 0 {
      var ps := PartialBoard(boardWidth, boardHeight, fullBoards, rects, spacing);
      PackBoardIds(boardWidth, boardHeight / 2, rest, spacing);
      ConservesWithPartial(full, rest, ps, rects, fullBoards + 1);
      assert all == full + Tag(Successes(ps), fullBoards + 1, true) + Tag(Failures(ps), fullBoards + 1, false);
    } else if |rest| > 0 {
      var fs := Failures(BoardPass(pass, fullBoards, rects));
      RemainingAt(pass, fullBoards, rects);
      ConservesUnplaced(full, rest, fs, rects);
      assert all == full + Unplaced(fs);
    } else {
      ConservesDone(full, rest, rects);
      assert all == full;
    }
    SameLength(RecordIds(all), PieceIds(rects));
  }

  /** Board numbers never decrease along `rs`. */
  predicate BoardsInOrder(rs: seq<Record>)
  {
    forall i, j :: 0 <= i < j < |rs| ==>
      rs[i].boardNumber.Some? && rs[j].boardNumber.Some? && rs[i].boardNumber.value <= rs[j].boardNumber.value
  }

  lemma AppendBoardInOrder(prev: seq<Record>, t: seq<Record>, k: nat)
    requires BoardsInOrder(prev)
    requires forall r :: r in prev ==> r.boardNumber.Some? && r.boardNumber.value <= k
    requires forall m :: 0 <= m < |t| ==> t[m].boardNumber == Some(k)
    ensures BoardsInOrder(prev + t)
  {
    var fr := prev + t;
    forall i, j | 0 <= i < j < |fr|
      ensures fr[i].boardNumber.Some? && fr[j].boardNumber.Some? &&
              fr[i].boardNumber.value <= fr[j].boardNumber.value
    {
      if j >= |prev| {
        assert fr[j] == t[j - |prev|];
        if i < |prev| {
          assert fr[i] == prev[i] && fr[i] in prev;
        } else {
          assert fr[i] == t[i - |prev|];
        }
      } else {
        assert fr[i] == prev[i] && fr[j] == prev[j];
      }
    }
  }

  /** The records of `Tag(ps, board, partial)` are the entries of `ps`, each
      with that board number and flag. */
  lemma TagMembers(ps: seq<Placement>, board: nat, partial: bool)
    ensures forall r :: r in Tag(ps, board, partial) ==>
              r.placement in ps && r.boardNumber == Some(board) && r.isPartial == partial
  {
    var t := Tag(ps, board, partial);
    forall r | r in t ensures r.placement in ps && r.boardNumber == Some(board) && r.isPartial == partial {
      var m :| 0 <= m < |t| && t[m] == r;
      assert r.placement == ps[m];
    }
  }

  /** A record of the first `k` boards is a placed entry of the pass of its
      board, not partial, numbered from 1 to `k`. */
  lemma {:induction false} FullRecordsMembers(pass: Pass, k: nat, rects: seq<Piece>)
    ensures forall r :: r in FullRecords(pass, k, rects) ==>
              !r.placement.failed && !r.isPartial && r.boardNumber.Some? &&
              1 <= r.boardNumber.value <= k && r.placement in BoardPass(pass, r.boardNumber.value, rects)
  {
    if k > 0 {
      var j := k - 1;
      FullRecordsMembers(pass, j, rects);
      RemainingStep(pass, j, rects);
      TagMembers(Successes(BoardPass(pass, k, rects)), k, false);
    }
  }

  /** Board numbers never decrease along the records of the full boards. */
  lemma {:induction false} FullRecordsInOrder(pass: Pass, k: nat, rects: seq<Piece>)
    ensures BoardsInOrder(FullRecords(pass, k, rects))
  {
    if k > 0 {
      var j := k - 1;
      FullRecordsInOrder(pass, j, rects);
      FullRecordsMembers(pass, j, rects);
      RemainingStep(pass, j, rects);
      AppendBoardInOrder(FullRecords(pass, j, rects), Tag(Successes(BoardPass(pass, k, rects)), k, false), k);
    }
  }

  /** A pass whose failure entries are parked at `(-1, -1)`, not rotated. */
  ghost predicate ParksFailures(pass: Pass)
  {
    forall rs, p :: p in pass(rs) && p.failed ==> p.x == -1 && p.y == -1 && !p.rotated
  }

  lemma BoardParksFailures(boardWidth: int, boardHeight: int, spacing: int)
    ensures ParksFailures(Board(boardWidth, boardHeight, spacing))
  {
    forall rs, p | p in Board(boardWidth, boardHeight, spacing)(rs) && p.failed
      ensures p.x == -1 && p.y == -1 && !p.rotated
    {
      var ps := PackBoard(boardWidth, boardHeight, rs, spacing);
      PackBoardEntries(boardWidth, boardHeight, rs, spacing);
      var i :| 0 <= i < |ps| && ps[i] == p;
    }
  }

  /** A parked failure entry is already the record the source builds for a
      piece left over, so the final failure records are those entries
      themselves. */
  lemma UnplacedAreFailures(fs: seq<Placement>)
    requires forall f :: f in fs ==> f.failed && f.x == -1 && f.y == -1 && !f.rotated
    ensures forall r :: r in Unplaced(fs) ==> r.placement in fs && r.boardNumber == None && !r.isPartial
  {
    var u := Unplaced(fs);
    forall r | r in u ensures r.placement in fs && r.boardNumber == None && !r.isPartial {
      var m :| 0 <= m < |u| && u[m] == r;
      assert fs[m] in fs;
      assert r.placement == fs[m];
    }
  }

  /** Where a record of the result comes from, for the board pass `pass` and
      the entries `partial` of the partial board: a placed entry of a full
      board with that board's number; an entry of the partial board, flagged
      partial exactly when placed; or, without a partial board, a failure of
      the last full pass with no board number. */
  ghost predicate Origin(pass: Pass, fullBoards: nat, hasPartial: bool, partial: seq<Placement>,
                         rects: seq<Piece>, r: Record)
  {
    (!r.placement.failed && !r.isPartial && r.boardNumber.Some? &&
     1 <= r.boardNumber.value <= fullBoards &&
     r.placement in BoardPass(pass, r.boardNumber.value, rects)) ||
    (hasPartial && r.boardNumber == Some(fullBoards + 1) && r.isPartial == !r.placement.failed &&
     r.placement in partial) ||
    (!hasPartial && fullBoards >= 1 && r.placement.failed && r.boardNumber == None && !r.isPartial &&
     r.placement in Failures(BoardPass(pass, fullBoards, rects)))
  }

  /** Every record of the result has one of the three origins. */
  lemma PackAllOrigin(boardWidth: int, boardHeight: int, fullBoards: nat, hasPartial: bool,
                      rects: seq<Piece>, spacing: int)
    requires fullBoards > 0 || hasPartial
    ensures forall r :: r in PackAll(boardWidth, boardHeight, fullBoards, hasPartial, rects, spacing) ==>
              Origin(Board(boardWidth, boardHeight, spacing), fullBoards, hasPartial,
                     PartialBoard(boardWidth, boardHeight, fullBoards, rects, spacing), rects, r)
  {
    var pass := Board(boardWidth, boardHeight, spacing);
    var all := PackAll(boardWidth, boardHeight, fullBoards, hasPartial, rects, spacing);
    var full := FullRecords(pass, fullBoards, rects);
    var rest := Remaining(pass, fullBoards, rects);
    var partial := PartialBoard(boardWidth, boardHeight, fullBoards, rects, spacing);
    PackAllCases(boardWidth, boardHeight, fullBoards, hasPartial, rects, spacing);
    BoardParksFailures(boardWidth, boardHeight, spacing);
    forall r | r in all
      ensures Origin(pass, fullBoards, hasPartial, partial, rects, r)
    {
      if r in full {
        OriginFull(pass, fullBoards, hasPartial, partial, rects, r);
      } else if hasPartial && |rest| > 0 {
        OriginPartial(pass, fullBoards, partial, rects, r);
      } else {
        OriginUnplaced(pass, fullBoards, partial, rects, r);
      }
    }
  }

  lemma OriginFull(pass: Pass, fullBoards: nat, hasPartial: bool, partial: seq<Placement>,
                   rects: seq<Piece>, r: Record)
    requires r in FullRecords(pass, fullBoards, rects)
    ensures Origin(pass, fullBoards, hasPartial, partial, rects, r)
  {
    FullRecordsMembers(pass, fullBoards, rects);
  }

  lemma OriginPartial(pass: Pass, fullBoards: nat, partial: seq<Placement>, rects: seq<Piece>, r: Record)
    requires r in Tag(Successes(partial), fullBoards + 1, true) + Tag(Failures(partial), fullBoards + 1, false)
    ensures Origin(pass, fullBoards, true, partial, rects, r)
  {
    TagMembers(Successes(partial), fullBoards + 1, true);
    TagMembers(Failures(partial), fullBoards + 1, false);
  }

  lemma OriginUnplaced(pass: Pass, fullBoards: nat, partial: seq<Placement>, rects: seq<Piece>, r: Record)
    requires fullBoards >= 1 && ParksFailures(pass)
    requires r in Unplaced(Failures(BoardPass(pass, fullBoards, rects)))
    ensures Origin(pass, fullBoards, false, partial, rects, r)
  {
    UnplacedAreFailures(Failures(BoardPass(pass, fullBoards, rects)));
  }

  /** A pass that never places a piece outside a `width × height` board. */
  ghost predicate StaysOn(pass: Pass, width: int, height: int)
  {
    forall rs, p :: p in pass(rs) && !p.failed ==>
      p.x >= 0 && p.y >= 0 && p.x + p.width <= width && p.y + p.height <= height
  }

  /** A pass whose placed entries keep the spacing between each other. */
  ghost predicate KeepsApart(pass: Pass, spacing: int)
  {
    forall rs, p, q :: p in pass(rs) && q in pass(rs) && p != q && !p.failed && !q.failed ==>
      Apart(p, q, spacing)
  }

  lemma BoardStaysOn(boardWidth: int, boardHeight: int, spacing: int)
    ensures StaysOn(Board(boardWidth, boardHeight, spacing), boardWidth, boardHeight)
  {
    forall rs ensures forall p :: p in Board(boardWidth, boardHeight, spacing)(rs) && !p.failed ==>
                        p.x >= 0 && p.y >= 0 && p.x + p.width <= boardWidth && p.y + p.height <= boardHeight
    {
      PackBoardContained(boardWidth, boardHeight, rs, spacing);
    }
  }

  lemma BoardKeepsApart(boardWidth: int, boardHeight: int, spacing: int)
    ensures KeepsApart(Board(boardWidth, boardHeight, spacing), spacing)
  {
    forall rs ensures forall p, q :: (p in Board(boardWidth, boardHeight, spacing)(rs) &&
                                      q in Board(boardWidth, boardHeight, spacing)(rs) &&
                                      p != q && !p.failed && !q.failed) ==> Apart(p, q, spacing)
    {
      PackBoardSeparated(boardWidth, boardHeight, rs, spacing);
    }
  }

  /** Every record of the result carries its board's number and flag as the
      source assigns them: placed pieces are numbered 1 to `fullBoards`, or
      `fullBoards + 1` on the partial board, where alone they are flagged
      partial; the pieces left over carry `fullBoards + 1` when there is a
      partial board and no board number otherwise. */
  lemma PackAllTags(boardWidth: int, boardHeight: int, fullBoards: nat, hasPartial: bool,
                    rects: seq<Piece>, spacing: int)
    requires fullBoards > 0 || hasPartial
    ensures forall r :: r in PackAll(boardWidth, boardHeight, fullBoards, hasPartial, rects, spacing) ==>
              (!r.placement.failed ==>
                 r.boardNumber.Some? &&
                 ((1 <= r.boardNumber.value <= fullBoards && !r.isPartial) ||
                  (hasPartial && r.boardNumber.value == fullBoards + 1 && r.isPartial))) &&
              (r.placement.failed ==>
                 !r.isPartial && r.boardNumber == (if hasPartial then Some(fullBoards + 1) else None))
  {
    PackAllOrigin(boardWidth, boardHeight, fullBoards, hasPartial, rects, spacing);
  }

  /** Board `fullBoards + 1` appears in the result exactly when `numBoards`
      has a fractional part and pieces are left after the full boards: only
      then does the half-height pass run (script.js:168). */
  lemma PackAllPartialWhen(boardWidth: int, boardHeight: int, fullBoards: nat, hasPartial: bool,
                           rects: seq<Piece>, spacing: int)
    requires fullBoards > 0 || hasPartial
    ensures (exists r :: r in PackAll(boardWidth, boardHeight, fullBoards, hasPartial, rects, spacing) &&
                         r.boardNumber == Some(fullBoards + 1)) <==>
            hasPartial && |Remaining(Board(boardWidth, boardHeight, spacing), fullBoards, rects)| > 0
  {
    var pass := Board(boardWidth, boardHeight, spacing);
    var full := FullRecords(pass, fullBoards, rects);
    var rest := Remaining(pass, fullBoards, rects);
    var all := PackAll(boardWidth, boardHeight, fullBoards, hasPartial, rects, spacing);
    PackAllCases(boardWidth, boardHeight, fullBoards, hasPartial, rects, spacing);
    if hasPartial && |rest| > 0 {
      var ps := PartialBoard(boardWidth, boardHeight, fullBoards, rects, spacing);
      PartialRecordPresent(full, ps, fullBoards);
    } else if |rest| > 0 {
      NoRecordBeyond(pass, fullBoards, rects, Failures(BoardPass(pass, fullBoards, rects)));
    } else {
      NoRecordBeyond(pass, fullBoards, rects, []);
      assert full + Unplaced([]) == full;
    }
  }

  /** A non-empty partial board contributes a record numbered `board`. */
  lemma PartialRecordPresent(full: seq<Record>, ps: seq<Placement>, board: nat)
    requires |ps| > 0
    ensures exists r :: r in full + Tag(Successes(ps), board, true) + Tag(Failures(ps), board, false) &&
                        r.boardNumber == Some(board)
  {
    SplitIds(ps);
    var t := full + Tag(Successes(ps), board, true) + Tag(Failures(ps), board, false);
    var w := t[|full|];
    assert w in t;
  }

  /** Neither the full boards nor the leftover records carry a number past
      the last full board. */
  lemma NoRecordBeyond(pass: Pass, fullBoards: nat, rects: seq<Piece>, fs: seq<Placement>)
    ensures forall r :: r in FullRecords(pass, fullBoards, rects) + Unplaced(fs) ==>
              r.boardNumber != Some(fullBoards + 1)
  {
    FullRecordsMembers(pass, fullBoards, rects);
    var full := FullRecords(pass, fullBoards, rects);
    var u := Unplaced(fs);
    forall r: Record | r in full + u ensures r.boardNumber != Some(fullBoards + 1) {
      if r !in full {
        var m :| 0 <= m < |u| && u[m] == r;
      }
    }
  }

  /** Placed records come first, in non-decreasing board order; every
      failure record comes after all of them. */
  predicate PlacedFirstInBoardOrder(rs: seq<Record>)
  {
    forall i, j :: 0 <= i < j < |rs| && !rs[j].placement.failed ==>
      !rs[i].placement.failed && rs[i].boardNumber.Some? && rs[j].boardNumber.Some? &&
      rs[i].boardNumber.value <= rs[j].boardNumber.value
  }

  lemma AppendPlaced(prev: seq<Record>, t: seq<Record>, k: nat)
    requires PlacedFirstInBoardOrder(prev)
    requires forall r :: r in prev ==> !r.placement.failed && r.boardNumber.Some? && r.boardNumber.value <= k
    requires forall m :: 0 <= m < |t| ==> !t[m].placement.failed && t[m].boardNumber == Some(k)
    ensures PlacedFirstInBoardOrder(prev + t)
  {
    var rs := prev + t;
    forall i, j | 0 <= i < j < |rs| && !rs[j].placement.failed
      ensures !rs[i].placement.failed && rs[i].boardNumber.Some? && rs[j].boardNumber.Some? &&
              rs[i].boardNumber.value <= rs[j].boardNumber.value
    {
      if j >= |prev| {
        assert rs[j] == t[j - |prev|];
        if i < |prev| {
          assert rs[i] == prev[i] && rs[i] in prev;
        } else {
          assert rs[i] == t[i - |prev|];
        }
      } else {
        assert rs[i] == prev[i] && rs[j] == prev[j];
      }
    }
  }

  lemma AppendFailed(prev: seq<Record>, t: seq<Record>)
    requires PlacedFirstInBoardOrder(prev)
    requires forall m :: 0 <= m < |t| ==> t[m].placement.failed
    ensures PlacedFirstInBoardOrder(prev + t)
  {
    var rs := prev + t;
    forall i, j | 0 <= i < j < |rs| && !rs[j].placement.failed
      ensures !rs[i].placement.failed && rs[i].boardNumber.Some? && rs[j].boardNumber.Some? &&
              rs[i].boardNumber.value <= rs[j].boardNumber.value
    {
      assert j < |prev|;
    }
  }

  lemma FullRecordsPlacedFirst(pass: Pass, k: nat, rects: seq<Piece>)
    ensures PlacedFirstInBoardOrder(FullRecords(pass, k, rects))
  {
    FullRecordsInOrder(pass, k, rects);
    FullRecordsMembers(pass, k, rects);
    var fr := FullRecords(pass, k, rects);
    forall i, j | 0 <= i < j < |fr| && !fr[j].placement.failed
      ensures !fr[i].placement.failed
    {
      assert fr[i] in fr;
    }
  }

  /** The result lists the placed pieces board by board, and the failures
      after all of them. */
  lemma PackAllOrdered(boardWidth: int, boardHeight: int, fullBoards: nat, hasPartial: bool,
                       rects: seq<Piece>, spacing: int)
    requires fullBoards > 0 || hasPartial
    ensures PlacedFirstInBoardOrder(PackAll(boardWidth, boardHeight, fullBoards, hasPartial, rects, spacing))
  {
    var pass := Board(boardWidth, boardHeight, spacing);
    PackAllCases(boardWidth, boardHeight, fullBoards, hasPartial, rects, spacing);
    FullRecordsPlacedFirst(pass, fullBoards, rects);
    var full := FullRecords(pass, fullBoards, rects);
    var rest := Remaining(pass, fullBoards, rects);
    if hasPartial && |rest| > 0 {
      FullRecordsMembers(pass, fullBoards, rects);
      OrderedWithPartial(full, PartialBoard(boardWidth, boardHeight, fullBoards, rects, spacing), fullBoards);
    } else if |rest| > 0 {
      AppendFailed(full, Unplaced(Failures(BoardPass(pass, fullBoards, rects))));
    }
  }

  /** The partial board's placed records follow those of the full boards, and
      its failures follow them all. */
  lemma OrderedWithPartial(full: seq<Record>, ps: seq<Placement>, k: nat)
    requires PlacedFirstInBoardOrder(full)
    requires forall r :: r in full ==> !r.placement.failed && r.boardNumber.Some? && r.boardNumber.value <= k
    ensures PlacedFirstInBoardOrder(full + Tag(Successes(ps), k + 1, true) + Tag(Failures(ps), k + 1, false))
  {
    var ts := Tag(Successes(ps), k + 1, true);
    forall m | 0 <= m < |ts| ensures !ts[m].placement.failed {
      assert Successes(ps)[m] in Successes(ps);
    }
    AppendPlaced(full, ts, k + 1);
    var tf := Tag(Failures(ps), k + 1, false);
    forall m | 0 <= m < |tf| ensures tf[m].placement.failed {
      assert Failures(ps)[m] in Failures(ps);
    }
    AppendFailed(full + ts, tf);
  }

  /** Every placed piece lies on its board: the full board, or the half-height
      board for the partial one. */
  lemma PackAllContained(boardWidth: int, boardHeight: int, fullBoards: nat, hasPartial: bool,
                         rects: seq<Piece>, spacing: int)
    requires fullBoards > 0 || hasPartial
    ensures forall r :: r in PackAll(boardWidth, boardHeight, fullBoards, hasPartial, rects, spacing) &&
                        !r.placement.failed ==>
              r.placement.x >= 0 && r.placement.y >= 0 && r.placement.x + r.placement.width <= boardWidth &&
              r.placement.y + r.placement.height <= (if r.isPartial then boardHeight / 2 else boardHeight)
  {
    var pass := Board(boardWidth, boardHeight, spacing);
    PackAllOrigin(boardWidth, boardHeight, fullBoards, hasPartial, rects, spacing);
    BoardStaysOn(boardWidth, boardHeight, spacing);
    PackBoardContained(boardWidth, boardHeight / 2, Remaining(pass, fullBoards, rects), spacing);
  }

  /** Two different placed pieces on the same board keep the spacing between
      them. */
  lemma PackAllSeparated(boardWidth: int, boardHeight: int, fullBoards: nat, hasPartial: bool,
                         rects: seq<Piece>, spacing: int)
    requires fullBoards > 0 || hasPartial
    ensures var all := PackAll(boardWidth, boardHeight, fullBoards, hasPartial, rects, spacing);
            forall a, b :: (a in all && b in all && a != b && !a.placement.failed && !b.placement.failed &&
                            a.boardNumber == b.boardNumber) ==> Apart(a.placement, b.placement, spacing)
  {
    var pass := Board(boardWidth, boardHeight, spacing);
    var all := PackAll(boardWidth, boardHeight, fullBoards, hasPartial, rects, spacing);
    PackAllOrigin(boardWidth, boardHeight, fullBoards, hasPartial, rects, spacing);
    BoardKeepsApart(boardWidth, boardHeight, spacing);
    PackBoardSeparated(boardWidth, boardHeight / 2, Remaining(pass, fullBoards, rects), spacing);
    forall a, b | a in all && b in all && a != b && !a.placement.failed && !b.placement.failed &&
                  a.boardNumber == b.boardNumber
      ensures Apart(a.placement, b.placement, spacing)
    {
      assert a.isPartial == b.isPartial;
      assert a.placement != b.placement;
    }
  }

  lemma MemberId(fs: seq<Placement>, p: Placement)
    requires p in fs
    ensures p.id in Ids(fs)
  {
    var i :| 0 <= i < |fs| && fs[i] == p;
    assert Ids(fs)[i] == p.id;
  }

  /** The record's piece failed on the board before its own: on board `b - 1`
      for a record of board `b >= 2`, and on the last full board for a piece
      left without a board. */
  ghost predicate CarriedInto(pass: Pass, fullBoards: nat, rects: seq<Piece>, r: Record)
  {
    match r.boardNumber
    case None =>
      fullBoards >= 1 && r.placement.id in Ids(Failures(BoardPass(pass, fullBoards, rects)))
    case Some(b) =>
      b >= 2 ==> r.placement.id in Ids(Failures(BoardPass(pass, b - 1, rects)))
  }

  /** A record for board `n + 1` whose piece was among those handed on after
      board `n` is carried into it. */
  lemma HandedOn(pass: Pass, fullBoards: nat, rects: seq<Piece>, n: nat, r: Record)
    requires n >= 1 && r.boardNumber == Some(n + 1)
    requires r.placement.id in PieceIds(Remaining(pass, n, rects))
    ensures CarriedInto(pass, fullBoards, rects, r)
  {
    var fs := Failures(BoardPass(pass, n, rects));
    RemainingAt(pass, n, rects);
    CarriedId(fs, r.placement.id);
    var b := r.boardNumber.value;
    assert b - 1 == n;
  }

  /** A piece carried from a list of failures has the id of one of them. */
  lemma CarriedId(fs: seq<Placement>, id: nat)
    requires id in PieceIds(Carry(fs))
    ensures id in Ids(fs)
  {
    var k :| 0 <= k < |Carry(fs)| && PieceIds(Carry(fs))[k] == id;
    assert Ids(fs)[k] == id;
  }

  /** An entry of full board `b >= 2` is one of the pieces left after board
      `b - 1`, for a pass that keeps ids. */
  lemma FromFullBoard(pass: Pass, rects: seq<Piece>, b: nat, p: Placement)
    requires KeepsIds(pass) && b >= 2
    requires p in BoardPass(pass, b, rects)
    ensures p.id in PieceIds(Remaining(pass, b - 1, rects))
  {
    var n := b - 1;
    var before := Remaining(pass, n, rects);
    assert BoardPass(pass, b, rects) == Entries(pass, before);
    EntryIdFromPass(Entries(pass, before), before, p);
  }

  /** A record of either origin on a board is carried into it, for a pass that
      keeps ids and a partial board made of the pieces left after the full
      boards. */
  lemma OriginCarried(pass: Pass, fullBoards: nat, hasPartial: bool, partial: seq<Placement>,
                      rects: seq<Piece>, r: Record)
    requires KeepsIds(pass)
    requires forall p :: p in partial ==> p.id in PieceIds(Remaining(pass, fullBoards, rects))
    requires Origin(pass, fullBoards, hasPartial, partial, rects, r)
    ensures CarriedInto(pass, fullBoards, rects, r)
  {
    if r.boardNumber.None? {
      MemberId(Failures(BoardPass(pass, fullBoards, rects)), r.placement);
    } else if r.boardNumber.value < 2 {
      // Nothing is carried into the first board.
    } else if r.boardNumber.value <= fullBoards {
      FullCarried(pass, fullBoards, rects, r.boardNumber.value, r);
    } else if fullBoards >= 1 {
      HandedOn(pass, fullBoards, rects, fullBoards, r);
    }
  }

  lemma FullCarried(pass: Pass, fullBoards: nat, rects: seq<Piece>, b: nat, r: Record)
    requires KeepsIds(pass)
    requires b >= 2 && r.boardNumber == Some(b)
    requires r.placement in BoardPass(pass, b, rects)
    ensures CarriedInto(pass, fullBoards, rects, r)
  {
    var n := b - 1;
    FromFullBoard(pass, rects, b, r.placement);
    HandedOn(pass, fullBoards, rects, n, r);
  }

  /** Only the failures of a board go on to the next one: whatever appears on
      a board after the first, or is left over at the end, failed on the board
      before. */
  lemma PackAllCarried(boardWidth: int, boardHeight: int, fullBoards: nat, hasPartial: bool,
                       rects: seq<Piece>, spacing: int)
    requires fullBoards > 0 || hasPartial
    ensures forall r :: r in PackAll(boardWidth, boardHeight, fullBoards, hasPartial, rects, spacing) ==>
              CarriedInto(Board(boardWidth, boardHeight, spacing), fullBoards, rects, r)
  {
    var pass := Board(boardWidth, boardHeight, spacing);
    var all := PackAll(boardWidth, boardHeight, fullBoards, hasPartial, rects, spacing);
    var rest := Remaining(pass, fullBoards, rects);
    var partial := PartialBoard(boardWidth, boardHeight, fullBoards, rects, spacing);
    PackAllOrigin(boardWidth, boardHeight, fullBoards, hasPartial, rects, spacing);
    BoardKeepsIds(boardWidth, boardHeight, spacing);
    PackBoardIds(boardWidth, boardHeight / 2, rest, spacing);
    forall p | p in partial ensures p.id in PieceIds(rest) {
      EntryIdFromPass(partial, rest, p);
    }
    forall r | r in all
      ensures CarriedInto(pass, fullBoards, rects, r)
    {
      OriginCarried(pass, fullBoards, hasPartial, partial, rects, r);
    }
  }
}
