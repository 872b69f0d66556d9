/** The ordering of candidate spaces: `spaces.sort((a, b) => area(b) - area(a))`
    (script.js:296). `Array.prototype.sort` is stable, so this is the stable sort
    by area, largest first; equal areas keep their order of generation. */
module AreaSort {
  import opened Rects

  function Area(s: Space): int { s.width * s.height }

  predicate SortedByArea(s: seq<Space>)
  {
    forall i, j :: 0 <= i < j < |s| ==> Area(s[i]) >= Area(s[j])
  }

  /** The spaces of `s` whose area is `a`, in order. */
  function WithArea(s: seq<Space>, a: int): seq<Space>
  {
    if s == [] then []
    else WithArea(s[..|s| - 1], a) + (if Area(s[|s| - 1]) == a then [s[|s| - 1]] else [])
  }

  /** Puts `x` after every element of `sorted` whose area is at least its own. */
  function InsertByArea(sorted: seq<Space>, x: Space): seq<Space>
  {
    if sorted == [] then [x]
    else if Area(sorted[0]) >= Area(x) then [sorted[0]] + InsertByArea(sorted[1..], x)
    else [x] + sorted
  }

  /** Insertion sort over the spaces in generation order. */
  function SortByArea(s: seq<Space>): seq<Space>
  {
    if s == [] then [] else InsertByArea(SortByArea(s[..|s| - 1]), s[|s| - 1])
  }

  lemma {:induction false} WithAreaAppend(u: seq<Space>, v: seq<Space>, a: int)
    ensures WithArea(u + v, a) == WithArea(u, a) + WithArea(v, a)
    decreases |v|
  {
    if v == [] {
      assert u + v == u;
    } else {
      var init := v[..|v| - 1];
      assert (u + v)[..|u + v| - 1] == u + init;
      assert (u + v)[|u + v| - 1] == v[|v| - 1];
      WithAreaAppend(u, init, a);
    }
  }

  /** Every element of `s` has area below `a`. */
  predicate AllBelow(s: seq<Space>, a: int)
  {
    forall k :: 0 <= k < |s| ==> Area(s[k]) < a
  }

  lemma {:induction false} InsertByAreaElements(sorted: seq<Space>, x: Space)
    ensures multiset(InsertByArea(sorted, x)) == multiset(sorted) + multiset{x}
    decreases |sorted|
  {
    if sorted != [] && Area(sorted[0]) >= Area(x) {
      assert sorted == [sorted[0]] + sorted[1..];
      InsertByAreaElements(sorted[1..], x);
    }
  }

  lemma {:induction false} InsertByAreaSorted(sorted: seq<Space>, x: Space)
    requires SortedByArea(sorted)
    ensures SortedByArea(InsertByArea(sorted, x))
    decreases |sorted|
  {
    var r := InsertByArea(sorted, x);
    if sorted == [] {
    } else if Area(sorted[0]) >= Area(x) {
      var rest := sorted[1..];
      InsertByAreaSorted(rest, x);
      InsertByAreaElements(rest, x);
      var t := InsertByArea(rest, x);
      assert r == [sorted[0]] + t;
      forall i, j | 0 <= i < j < |r| ensures Area(r[i]) >= Area(r[j]) {
        if i == 0 {
          assert r[j] in multiset(rest) + multiset{x} by { assert r[j] in multiset(t); }
          if r[j] in multiset(rest) {
            var k :| 0 <= k < |rest| && rest[k] == r[j];
            assert sorted[k + 1] == r[j];
          }
        } else {
          assert r[i] == t[i - 1] && r[j] == t[j - 1];
        }
      }
    } else {
      assert r == [x] + sorted;
      forall i, j | 0 <= i < j < |r| ensures Area(r[i]) >= Area(r[j]) {
        assert r[j] == sorted[j - 1];
        if i == 0 {
          assert j - 1 == 0 || Area(sorted[0]) >= Area(sorted[j - 1]);
        } else {
          assert r[i] == sorted[i - 1];
        }
      }
    }
  }

  lemma {:induction false} WithAreaNone(s: seq<Space>, a: int)
    requires AllBelow(s, a)
    ensures WithArea(s, a) == []
  {
    if s != [] {
      WithAreaNone(s[..|s| - 1], a);
    }
  }

  lemma SortedTail(sorted: seq<Space>)
    requires sorted != [] && SortedByArea(sorted)
    ensures SortedByArea(sorted[1..])
    ensures AllBelow(sorted, Area(sorted[0]) + 1)
  {
    forall k | 0 <= k < |sorted| ensures Area(sorted[k]) < Area(sorted[0]) + 1 {
      assert k == 0 || Area(sorted[0]) >= Area(sorted[k]);
    }
  }

  lemma {:induction false} InsertByAreaStable(sorted: seq<Space>, x: Space, a: int)
    requires SortedByArea(sorted)
    ensures WithArea(InsertByArea(sorted, x), a) ==
            WithArea(sorted, a) + (if Area(x) == a then [x] else [])
    decreases |sorted|
  {
    var xs := if Area(x) == a then [x] else [];
    if sorted == [] {
      assert InsertByArea(sorted, x) == [x];
      assert [x][..0] == [];
    } else if Area(sorted[0]) >= Area(x) {
      var h, rest := sorted[0], sorted[1..];
      assert sorted == [h] + rest;
      SortedTail(sorted);
      InsertByAreaStable(rest, x, a);
      calc {
        WithArea(InsertByArea(sorted, x), a);
        WithArea([h] + InsertByArea(rest, x), a);
        { WithAreaAppend([h], InsertByArea(rest, x), a); }
        WithArea([h], a) + WithArea(InsertByArea(rest, x), a);
        WithArea([h], a) + (WithArea(rest, a) + xs);
        { WithAreaAppend([h], rest, a); }
        WithArea(sorted, a) + xs;
      }
    } else {
      InsertAtFrontStable(sorted, x, a);
    }
  }

  lemma InsertAtFrontStable(sorted: seq<Space>, x: Space, a: int)
    requires SortedByArea(sorted) && sorted != [] && Area(sorted[0]) < Area(x)
    ensures WithArea(InsertByArea(sorted, x), a) ==
            WithArea(sorted, a) + (if Area(x) == a then [x] else [])
  {
    assert WithArea([x], a) == (if Area(x) == a then [x] else []) by { assert [x][..0] == []; }
    assert InsertByArea(sorted, x) == [x] + sorted;
    WithAreaAppend([x], sorted, a);
    if Area(x) == a {
      SortedTail(sorted);
      WithAreaNone(sorted, a);
    }
  }

  /** `SortByArea` is the stable sort by area, largest first: the result is a
      permutation of the input, in non-increasing area order, and for every area
      the spaces of that area appear in the order they had in the input. */
  lemma {:induction false} SortByAreaCorrect(s: seq<Space>)
    ensures |SortByArea(s)| == |s|
    ensures multiset(SortByArea(s)) == multiset(s)
    ensures SortedByArea(SortByArea(s))
    ensures forall a :: WithArea(SortByArea(s), a) == WithArea(s, a)
  {
    if s != [] {
      var init, last := s[..|s| - 1], s[|s| - 1];
      assert s == init + [last];
      SortByAreaCorrect(init);
      InsertByAreaElements(SortByArea(init), last);
      InsertByAreaSorted(SortByArea(init), last);
      forall a ensures WithArea(SortByArea(s), a) == WithArea(s, a) {
        InsertByAreaStable(SortByArea(init), last, a);
      }
      assert multiset(s) == multiset(init) + multiset{last};
      assert |multiset(SortByArea(s))| == |multiset(s)|;
    }
  }
}
