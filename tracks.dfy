/** Sequences of track numbers: absolute distance, ascending sort, reversal
    and selection of the requests that lie on one side of the head. The
    library calls the three schedulers make (`sort`, `sorted`, `filter`,
    `reverse`, `reversed`) are modelled by these functions. */
module Tracks {

  /** `Math.abs`, Python's `abs` and C++'s `abs` on integers. */
  function Abs(x: int): (r: nat)
    ensures r == x || r == -x
  {
    if x < 0 then -x else x
  }

  ghost predicate Ascending(s: seq<int>) {
    forall i, j :: 0 <= i < j < |s| ==> s[i] <= s[j]
  }

  ghost predicate Descending(s: seq<int>) {
    forall i, j :: 0 <= i < j < |s| ==> s[i] >= s[j]
  }

  ghost predicate AllAtLeast(s: seq<int>, b: int) {
    forall i :: 0 <= i < |s| ==> b <= s[i]
  }

  ghost predicate AllAtMost(s: seq<int>, b: int) {
    forall i :: 0 <= i < |s| ==> s[i] <= b
  }

  lemma AscendingCons(x: int, s: seq<int>)
    requires Ascending(s) && AllAtLeast(s, x)
    ensures Ascending([x] + s)
  {
    forall i, j | 0 <= i < j < |[x] + s| ensures ([x] + s)[i] <= ([x] + s)[j] {
      assert ([x] + s)[j] == s[j - 1];
      if i > 0 {
        assert ([x] + s)[i] == s[i - 1];
      }
    }
  }

  lemma DescendingCons(x: int, s: seq<int>)
    requires Descending(s) && AllAtMost(s, x)
    ensures Descending([x] + s)
  {
    forall i, j | 0 <= i < j < |[x] + s| ensures ([x] + s)[i] >= ([x] + s)[j] {
      assert ([x] + s)[j] == s[j - 1];
      if i > 0 {
        assert ([x] + s)[i] == s[i - 1];
      }
    }
  }

  lemma AscendingSnoc(s: seq<int>, x: int)
    requires Ascending(s) && AllAtMost(s, x)
    ensures Ascending(s + [x])
  {
    forall i, j | 0 <= i < j < |s + [x]| ensures (s + [x])[i] <= (s + [x])[j] {
      assert (s + [x])[i] == s[i];
    }
  }

  lemma DescendingSnoc(s: seq<int>, x: int)
    requires Descending(s) && AllAtLeast(s, x)
    ensures Descending(s + [x])
  {
    forall i, j | 0 <= i < j < |s + [x]| ensures (s + [x])[i] >= (s + [x])[j] {
      assert (s + [x])[i] == s[i];
    }
  }

  /** The tail of an ascending sequence is ascending, and no entry of it is
      below the first. */
  lemma AscendingTail(s: seq<int>)
    requires Ascending(s) && s != []
    ensures Ascending(s[1..]) && AllAtLeast(s[1..], s[0])
  {
    var rest := s[1..];
    forall i, j | 0 <= i < j < |rest| ensures rest[i] <= rest[j] {
      assert rest[i] == s[i + 1] && rest[j] == s[j + 1];
    }
    forall i | 0 <= i < |rest| ensures s[0] <= rest[i] {
      assert rest[i] == s[i + 1];
    }
  }

  /** Regrouping a concatenation of three sequences. */
  lemma ConcatAssoc(a: seq<int>, b: seq<int>, c: seq<int>)
    ensures a + b + c == a + (b + c)
  {
  }

  /** Appending nothing. */
  lemma ConcatEmpty(a: seq<int>)
    ensures a + [] == a
  {
  }

  /** Prepending nothing. */
  lemma EmptyConcat(a: seq<int>)
    ensures [] + a == a
  {
  }

  /** Regrouping a concatenation of four sequences. */
  lemma ConcatRegroup(a: seq<int>, b: seq<int>, c: seq<int>, d: seq<int>)
    ensures a + b + c + d == a + (b + c + d)
  {
  }

  /** Cutting a concatenation where its parts meet gives the parts back. */
  lemma SplitConcat(a: seq<int>, b: seq<int>)
    ensures (a + b)[..|a|] == a && (a + b)[|a|..] == b
  {
  }

  /** Cutting a concatenation of three around its middle part. */
  lemma SplitAround(a: seq<int>, mid: seq<int>, b: seq<int>)
    ensures (a + mid + b)[..|a|] == a && (a + mid + b)[|a| + |mid|..] == b
  {
    SplitConcat(a + mid, b);
    SplitConcat(a, mid);
    assert (a + mid + b)[..|a|] == (a + mid + b)[..|a| + |mid|][..|a|];
  }

  /** A non-empty sequence is its first entry followed by the rest. */
  lemma FirstAndRest(s: seq<int>)
    requires s != []
    ensures [s[0]] + s[1..] == s
  {
  }

  /** A sequence is its prefix followed by the rest. */
  lemma SplitAt(s: seq<int>, m: nat)
    requires m <= |s|
    ensures s[..m] + s[m..] == s
  {
  }

  /** A bound on the elements of `u` holds for every sub-multiset `t` of it. */
  lemma BoundsBySubMultiset(t: seq<int>, u: seq<int>, lo: int, hi: int)
    requires multiset(t) <= multiset(u)
    ensures AllAtLeast(u, lo) ==> AllAtLeast(t, lo)
    ensures AllAtMost(u, hi) ==> AllAtMost(t, hi)
  {
    forall i | 0 <= i < |t|
      ensures t[i] in u
    {
      assert t[i] in multiset(t);
    }
  }

  /** Inserts `x` into an ascending sequence, before the first larger element. */
  function Insert(x: int, s: seq<int>): (r: seq<int>)
    requires Ascending(s)
    ensures Ascending(r)
    ensures multiset(r) == multiset(s) + multiset{x}
  {
    if s == [] || x <= s[0] then
      assert AllAtLeast(s, x) by {
        forall i | 0 <= i < |s| ensures x <= s[i] {
          assert s[0] <= s[i] || i == 0;
        }
      }
      AscendingCons(x, s);
      [x] + s
    else
      var rest := s[1..];
      AscendingTail(s);
      var t := Insert(x, rest);
      assert s == [s[0]] + rest;
      assert AllAtLeast(rest + [x], s[0]) by {
        forall i | 0 <= i < |rest + [x]| ensures s[0] <= (rest + [x])[i] {
          if i < |rest| {
            assert (rest + [x])[i] == rest[i];
          }
        }
      }
      assert multiset(t) == multiset(rest + [x]);
      BoundsBySubMultiset(t, rest + [x], s[0], 0);
      AscendingCons(s[0], t);
      [s[0]] + t
  }

  /** The ascending sort of `s`: `sort((a, b) => a - b)`, `std::sort`, `sorted`. */
  function SortAsc(s: seq<int>): (r: seq<int>)
    ensures Ascending(r)
    ensures multiset(r) == multiset(s)
    ensures |r| == |s|
  {
    if s == [] then []
    else
      assert s == [s[0]] + s[1..];
      var r := Insert(s[0], SortAsc(s[1..]));
      assert |r| == |multiset(r)| == |multiset(s)|;
      r
  }

  /** Two ascending arrangements of the same multiset are equal: every correct
      sort returns SortAsc's result. */
  lemma {:induction false} AscendingUnique(a: seq<int>, b: seq<int>)
    requires Ascending(a) && Ascending(b)
    requires multiset(a) == multiset(b)
    ensures a == b
  {
    assert |a| == |multiset(a)| == |multiset(b)| == |b|;
    if a != [] {
      AscendingTail(a);
      AscendingTail(b);
      AscendingFirstLeast(a, b[0]);
      AscendingFirstLeast(b, a[0]);
      SameTails(a, b);
      AscendingUnique(a[1..], b[1..]);
      assert a == [a[0]] + a[1..];
      assert b == [b[0]] + b[1..];
    }
  }

  /** The first entry of an ascending sequence is its least. */
  lemma AscendingFirstLeast(s: seq<int>, x: int)
    requires Ascending(s) && x in multiset(s)
    ensures s[0] <= x
  {
    var k :| 0 <= k < |s| && s[k] == x;
  }

  /** Equal multisets with equal first entries have equal tails' multisets. */
  lemma SameTails(a: seq<int>, b: seq<int>)
    requires a != [] && b != [] && a[0] == b[0]
    requires multiset(a) == multiset(b)
    ensures multiset(a[1..]) == multiset(b[1..])
  {
    assert a == [a[0]] + a[1..];
    assert b == [b[0]] + b[1..];
    assert multiset(a) == multiset{a[0]} + multiset(a[1..]);
    assert multiset(b) == multiset{b[0]} + multiset(b[1..]);
    assert multiset(a[1..]) == multiset(a) - multiset{a[0]};
    assert multiset(b[1..]) == multiset(b) - multiset{b[0]};
  }

  /** `reverse`, `reversed`, `std::reverse`. */
  function Reverse(s: seq<int>): (r: seq<int>)
    ensures |r| == |s|
    ensures forall i :: 0 <= i < |s| ==> r[i] == s[|s| - 1 - i]
  {
    if s == [] then [] else Reverse(s[1..]) + [s[0]]
  }

  lemma {:induction false} ReverseMultiset(s: seq<int>)
    ensures multiset(Reverse(s)) == multiset(s)
  {
    if s != [] {
      assert s == [s[0]] + s[1..];
      ReverseMultiset(s[1..]);
    }
  }

  lemma ReverseReverse(s: seq<int>)
    ensures Reverse(Reverse(s)) == s
  {
  }

  lemma ReverseOrder(s: seq<int>)
    ensures Ascending(s) <==> Descending(Reverse(s))
    ensures Descending(s) <==> Ascending(Reverse(s))
  {
    var r := Reverse(s);
    if Descending(r) {
      forall i, j | 0 <= i < j < |s| ensures s[i] <= s[j] {
        assert s[i] == r[|s| - 1 - i] && s[j] == r[|s| - 1 - j];
      }
    }
    if Ascending(r) {
      forall i, j | 0 <= i < j < |s| ensures s[i] >= s[j] {
        assert s[i] == r[|s| - 1 - i] && s[j] == r[|s| - 1 - j];
      }
    }
  }

  /** Which requests a sweep takes, relative to the head position `h`. */
  datatype Side = AtOrAbove | Below | AtOrBelow | Above

  predicate OnSide(x: int, h: int, side: Side) {
    match side
    case AtOrAbove => x >= h
    case Below => x < h
    case AtOrBelow => x <= h
    case Above => x > h
  }

  /** The side holding exactly the requests `side` leaves out. */
  function Opposite(side: Side): (o: Side)
    ensures forall x, h :: OnSide(x, h, o) == !OnSide(x, h, side)
  {
    match side
    case AtOrAbove => Below
    case Below => AtOrAbove
    case AtOrBelow => Above
    case Above => AtOrBelow
  }

  /** `filter(track => track >= head)` and its siblings; also a `for` loop
      that appends each track passing the test. */
  function Select(s: seq<int>, h: int, side: Side): (r: seq<int>)
    ensures |r| <= |s|
    ensures forall i :: 0 <= i < |r| ==> OnSide(r[i], h, side)
  {
    if s == [] then []
    else (if OnSide(s[0], h, side) then [s[0]] else []) + Select(s[1..], h, side)
  }

  /** Select keeps every occurrence of a request on the side and no other. */
  lemma {:induction false} SelectMultiset(s: seq<int>, h: int, side: Side)
    ensures forall x :: multiset(Select(s, h, side))[x] == if OnSide(x, h, side) then multiset(s)[x] else 0
    ensures multiset(Select(s, h, side)) <= multiset(s)
  {
    if s != [] {
      assert s == [s[0]] + s[1..];
      SelectMultiset(s[1..], h, side);
    }
  }

  lemma {:induction false} SelectAppend(s: seq<int>, x: int, h: int, side: Side)
    ensures Select(s + [x], h, side) == Select(s, h, side) + if OnSide(x, h, side) then [x] else []
  {
    if s != [] {
      assert (s + [x])[1..] == s[1..] + [x];
      SelectAppend(s[1..], x, h, side);
      ConcatAssoc(if OnSide(s[0], h, side) then [s[0]] else [], Select(s[1..], h, side),
        if OnSide(x, h, side) then [x] else []);
    }
  }

  lemma {:induction false} SelectReverse(s: seq<int>, h: int, side: Side)
    ensures Select(Reverse(s), h, side) == Reverse(Select(s, h, side))
  {
    if s != [] {
      var t := Select(s[1..], h, side);
      SelectReverse(s[1..], h, side);
      SelectAppend(Reverse(s[1..]), s[0], h, side);
      if OnSide(s[0], h, side) {
        assert ([s[0]] + t)[1..] == t;
      } else {
        EmptyConcat(t);
        ConcatEmpty(Reverse(t));
      }
    }
  }

  lemma {:induction false} SelectAscending(s: seq<int>, h: int, side: Side)
    requires Ascending(s)
    ensures Ascending(Select(s, h, side))
  {
    if s != [] {
      var rest := s[1..];
      AscendingTail(s);
      var t := Select(rest, h, side);
      SelectAscending(rest, h, side);
      if OnSide(s[0], h, side) {
        SelectMultiset(rest, h, side);
        BoundsBySubMultiset(t, rest, s[0], 0);
        AscendingCons(s[0], t);
      } else {
        EmptyConcat(t);
      }
    }
  }

  /** Selecting with a test every element passes keeps the whole sequence;
      with a test none passes, nothing. */
  lemma {:induction false} SelectAllOrNone(s: seq<int>, h: int, side: Side)
    ensures (forall i :: 0 <= i < |s| ==> OnSide(s[i], h, side)) ==> Select(s, h, side) == s
    ensures (forall i :: 0 <= i < |s| ==> !OnSide(s[i], h, side)) ==> Select(s, h, side) == []
  {
    if s != [] {
      SelectAllOrNone(s[1..], h, side);
      if forall i :: 0 <= i < |s| ==> OnSide(s[i], h, side) {
        assert forall i :: 0 <= i < |s[1..]| ==> OnSide(s[1..][i], h, side) by {
          forall i | 0 <= i < |s[1..]| ensures OnSide(s[1..][i], h, side) {
            assert s[1..][i] == s[i + 1];
          }
        }
      }
      if forall i :: 0 <= i < |s| ==> !OnSide(s[i], h, side) {
        assert forall i :: 0 <= i < |s[1..]| ==> !OnSide(s[1..][i], h, side) by {
          forall i | 0 <= i < |s[1..]| ensures !OnSide(s[1..][i], h, side) {
            assert s[1..][i] == s[i + 1];
          }
        }
      }
    }
  }

  /** Sequences with the same elements select the same elements. */
  lemma SelectSameElements(s: seq<int>, t: seq<int>, h: int, side: Side)
    requires multiset(s) == multiset(t)
    ensures multiset(Select(s, h, side)) == multiset(Select(t, h, side))
    ensures |Select(s, h, side)| == |Select(t, h, side)|
  {
    SelectMultiset(s, h, side);
    SelectMultiset(t, h, side);
    assert multiset(Select(s, h, side)) == multiset(Select(t, h, side));
    assert |Select(s, h, side)| == |multiset(Select(s, h, side))|;
    assert |Select(t, h, side)| == |multiset(Select(t, h, side))|;
  }

  /** Every request lies on exactly one of two opposite sides. */
  lemma SelectPartition(s: seq<int>, h: int, side: Side)
    ensures multiset(Select(s, h, side)) + multiset(Select(s, h, Opposite(side))) == multiset(s)
  {
    SelectMultiset(s, h, side);
    SelectMultiset(s, h, Opposite(side));
    forall x ensures (multiset(Select(s, h, side)) + multiset(Select(s, h, Opposite(side))))[x] == multiset(s)[x] {
      if !OnSide(x, h, side) {
        assert OnSide(x, h, Opposite(side));
      }
    }
  }

  /** An ascending sequence splits at the head into the low side followed by
      the high side: `left ++ right` is the sorted input. */
  lemma {:induction false} AscendingSplits(s: seq<int>, h: int, low: Side)
    requires low == Below || low == AtOrBelow
    requires Ascending(s)
    ensures Select(s, h, low) + Select(s, h, Opposite(low)) == s
  {
    if s != [] {
      var rest := s[1..];
      AscendingTail(s);
      if OnSide(s[0], h, low) {
        AscendingSplits(rest, h, low);
        assert !OnSide(s[0], h, Opposite(low));
        EmptyConcat(Select(rest, h, Opposite(low)));
        ConcatAssoc([s[0]], Select(rest, h, low), Select(rest, h, Opposite(low)));
        assert s == [s[0]] + rest;
      } else {
        forall i | 0 <= i < |s| ensures !OnSide(s[i], h, low) {
          if i > 0 {
            assert s[i] == rest[i - 1];
          }
        }
        SelectAllOrNone(s, h, low);
        SelectAllOrNone(s, h, Opposite(low));
        EmptyConcat(s);
      }
    }
  }
}
