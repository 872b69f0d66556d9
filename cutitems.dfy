/** The list of pieces to cut (`getCutItems`, script.js:114-135): every row of
    the cut form asks for `quantity` pieces of one size, and the list numbers
    the pieces in order. */
module CutItems {
  import opened Rects

  /** One row of the cut form, its three fields already read as integers (a
      field that does not parse is read as 0). */
  datatype CutRow = CutRow(width: int, height: int, quantity: int)

  /** A row contributes pieces only when all three fields are positive
      (script.js:127). */
  predicate Wanted(row: CutRow)
  {
    row.width > 0 && row.height > 0 && row.quantity > 0
  }

  /** The dimensions asked for, one entry per piece, row after row. */
  function Copies(rows: seq<CutRow>): seq<(int, int)>
  {
    if rows == [] then []
    else
      var row := rows[|rows| - 1];
      Copies(rows[..|rows| - 1]) +
        (if Wanted(row) then seq(row.quantity, _ => (row.width, row.height)) else [])
  }

  /** The pieces for a list of dimensions, each numbered by its position. */
  function Numbered(dims: seq<(int, int)>): (r: seq<Piece>)
    ensures |r| == |dims|
    ensures forall k :: 0 <= k < |dims| ==> r[k] == Piece(dims[k].0, dims[k].1, k)
  {
    seq(|dims|, k requires 0 <= k < |dims| => Piece(dims[k].0, dims[k].1, k))
  }

  /** The cut list `getCutItems` returns. */
  function Items(rows: seq<CutRow>): seq<Piece>
  {
    Numbered(Copies(rows))
  }

  /** The number of pieces the form asks for: the quantities of its wanted
      rows, summed. */
  function Total(rows: seq<CutRow>): nat
  {
    if rows == [] then 0
    else
      var row := rows[|rows| - 1];
      Total(rows[..|rows| - 1]) + (if Wanted(row) then row.quantity else 0)
  }

  lemma NumberedPush(dims: seq<(int, int)>, d: (int, int))
    ensures Numbered(dims + [d]) == Numbered(dims) + [Piece(d.0, d.1, |dims|)]
  {
    var a, b := Numbered(dims + [d]), Numbered(dims) + [Piece(d.0, d.1, |dims|)];
    forall k | 0 <= k < |a| ensures a[k] == b[k] {
      if k < |dims| {
        assert (dims + [d])[k] == dims[k];
      }
    }
  }

  /** `getCutItems`: for each wanted row, `quantity` pushes of a piece of the
      row's size whose id is the length of the list so far. */
  method GetCutItems(rows: seq<CutRow>) returns (cuts: seq<Piece>)
    ensures cuts == Items(rows)
  {
    cuts := [];
    for r := 0 to |rows|
      invariant cuts == Numbered(Copies(rows[..r]))
    {
      var row := rows[r];
      var width, height, quantity := row.width, row.height, row.quantity;
      assert rows[..r + 1][..r] == rows[..r];
      ghost var before := Copies(rows[..r]);
      if width > 0 && height > 0 && quantity > 0 {
        for i := 0 to quantity
          invariant cuts == Numbered(before + seq(i, _ => (width, height)))
        {
          ghost var done := before + seq(i, _ => (width, height));
          NumberedPush(done, (width, height));
          assert done + [(width, height)] == before + seq(i + 1, _ => (width, height));
          cuts := cuts + [Piece(width, height, |cuts|)];
        }
      } else {
        assert before + [] == before;
      }
    }
    assert rows[..|rows|] == rows;
  }

  /** The list holds exactly as many pieces as the wanted rows ask for. */
  lemma {:induction false} ItemsCount(rows: seq<CutRow>)
    ensures |Items(rows)| == Total(rows)
  {
    if rows != [] {
      ItemsCount(rows[..|rows| - 1]);
    }
  }

  /** The list for two runs of rows is the list for the first followed by the
      list for the second. */
  lemma {:induction false} CopiesAppend(a: seq<CutRow>, b: seq<CutRow>)
    ensures Copies(a + b) == Copies(a) + Copies(b)
    decreases |b|
  {
    if b == [] {
      assert a + b == a;
    } else {
      var init := b[..|b| - 1];
      assert (a + b)[..|a + b| - 1] == a + init;
      assert (a + b)[|a + b| - 1] == b[|b| - 1];
      CopiesAppend(a, init);
    }
  }

  /** A row that is not wanted adds nothing; a wanted row adds `quantity`
      pieces of its own size, numbered after the pieces before it. */
  lemma RowContribution(rows: seq<CutRow>, row: CutRow)
    ensures !Wanted(row) ==> Items(rows + [row]) == Items(rows)
    ensures Wanted(row) ==>
              |Items(rows + [row])| == |Items(rows)| + row.quantity &&
              forall k :: |Items(rows)| <= k < |Items(rows + [row])| ==>
                Items(rows + [row])[k] == Piece(row.width, row.height, k)
  {
    assert (rows + [row])[..|rows + [row]| - 1] == rows;
    if !Wanted(row) {
      assert Copies(rows) + [] == Copies(rows);
    }
  }

  /** Ids are the positions in the list, so no two pieces share one. */
  lemma ItemsIds(rows: seq<CutRow>)
    ensures forall k :: 0 <= k < |Items(rows)| ==> Items(rows)[k].id == k
    ensures forall i, j :: 0 <= i < j < |Items(rows)| ==> Items(rows)[i].id != Items(rows)[j].id
  {
  }

  /** Every piece has the size of some wanted row, so both its sides are
      positive. */
  lemma {:induction false} ItemsFromWanted(rows: seq<CutRow>)
    ensures forall p :: p in Items(rows) ==>
              p.width > 0 && p.height > 0 &&
              exists row :: row in rows && Wanted(row) && row.width == p.width && row.height == p.height
  {
    if rows != [] {
      var init, row := rows[..|rows| - 1], rows[|rows| - 1];
      ItemsFromWanted(init);
      assert rows == init + [row];
      forall p | p in Items(rows)
        ensures p.width > 0 && p.height > 0 &&
                exists row :: row in rows && Wanted(row) && row.width == p.width && row.height == p.height
      {
        var k :| 0 <= k < |Items(rows)| && Items(rows)[k] == p;
        if k < |Items(init)| {
          assert Items(init)[k] == p;
          var r0 :| r0 in init && Wanted(r0) && r0.width == p.width && r0.height == p.height;
          assert r0 in rows;
        } else {
          assert Copies(rows)[k] == (row.width, row.height);
          assert row in rows;
        }
      }
    }
  }
}
