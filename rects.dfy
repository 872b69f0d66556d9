/** Entities shared by every stage of the cutting-stock engine: pieces to cut,
    candidate free regions on a board and the records the packer produces. */
module Rects {

  /** Clearance, in millimetres, kept between neighbouring pieces (script.js:202).
      Every operation takes the clearance as a parameter; this is the value the
      application passes. */
  const CutSpacing: int := 3

  datatype Option<T> = None | Some(value: T)

  /** One piece to cut: its requested dimensions and its run-wide id. */
  datatype Piece = Piece(width: int, height: int, id: nat)

  /** A candidate free region on a board, top-left origin. */
  datatype Space = Space(x: int, y: int, width: int, height: int)

  /** One entry produced by single-board packing. A placed piece carries its
      position and as-placed dimensions; a failed one has `x = y = -1`, its
      requested dimensions and `failed`. `originalId` is the index of the piece
      within the pass that produced the entry. A failed entry has no `rotated`
      field in the source; it is `false` here. */
  datatype Placement = Placement(x: int, y: int, width: int, height: int,
                                 id: nat, originalId: nat, rotated: bool, failed: bool)

  /** The entries that were placed, in order (`filter(p => !p.failed)`). */
  function Successes(ps: seq<Placement>): (r: seq<Placement>)
    ensures forall p {:trigger p in r} {:trigger p in ps} :: p in r <==> p in ps && !p.failed
    ensures |r| <= |ps|
  {
    if ps == [] then []
    else Successes(ps[..|ps| - 1]) + (if ps[|ps| - 1].failed then [] else [ps[|ps| - 1]])
  }

  /** The entries that failed, in order (`filter(p => p.failed)`). */
  function Failures(ps: seq<Placement>): (r: seq<Placement>)
    ensures forall p {:trigger p in r} {:trigger p in ps} :: p in r <==> p in ps && p.failed
    ensures |r| <= |ps|
  {
    if ps == [] then []
    else Failures(ps[..|ps| - 1]) + (if ps[|ps| - 1].failed then [ps[|ps| - 1]] else [])
  }

  function Ids(ps: seq<Placement>): (r: seq<nat>)
    ensures |r| == |ps|
    ensures forall i :: 0 <= i < |ps| ==> r[i] == ps[i].id
  {
    if ps == [] then [] else Ids(ps[..|ps| - 1]) + [ps[|ps| - 1].id]
  }

  function PieceIds(rs: seq<Piece>): (r: seq<nat>)
    ensures |r| == |rs|
    ensures forall i :: 0 <= i < |rs| ==> r[i] == rs[i].id
  {
    if rs == [] then [] else PieceIds(rs[..|rs| - 1]) + [rs[|rs| - 1].id]
  }

  lemma IdsAppend(a: seq<Placement>, b: seq<Placement>)
    ensures Ids(a + b) == Ids(a) + Ids(b)
  {
  }

  /** Splitting a pass into its successes and its failures loses no id and
      invents none. */
  lemma {:induction false} SplitIds(ps: seq<Placement>)
    ensures multiset(Ids(Successes(ps))) + multiset(Ids(Failures(ps))) == multiset(Ids(ps))
    ensures |Successes(ps)| + |Failures(ps)| == |ps|
  {
    if ps != [] {
      var init, last := ps[..|ps| - 1], ps[|ps| - 1];
      assert ps == init + [last];
      SplitIds(init);
      IdsAppend(init, [last]);
      IdsAppend(Successes(init), if last.failed then [] else [last]);
      IdsAppend(Failures(init), if last.failed then [last] else []);
    }
  }
}
