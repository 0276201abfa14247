/** Head movement along a service order. The conceptual path starts at the
    head position and visits the serviced tracks in order; its cost is the sum
    of the distances between consecutive positions. */
module Seek {
  import opened Tracks

  /** Total head movement when the head starts at `head` and visits `s` in
      order. */
  function SeekCost(head: int, s: seq<int>): (total: nat)
    ensures s == [] ==> total == 0
    decreases |s|
  {
    if s == [] then 0 else Abs(head - s[0]) + SeekCost(s[0], s[1..])
  }

  /** Where the head rests after visiting `s` from `start`. */
  function Last(start: int, s: seq<int>): int {
    if s == [] then start else s[|s| - 1]
  }

  /** A path that starts at `start` ends where `s` leaves the head. */
  lemma LastOfPath(start: int, s: seq<int>)
    ensures ([start] + s)[|s|] == Last(start, s)
  {
  }

  /** The cost of a path is its first move plus the cost of the rest. */
  lemma SeekCostCons(h: int, x: int, t: seq<int>)
    ensures SeekCost(h, [x] + t) == Abs(h - x) + SeekCost(x, t)
  {
    assert ([x] + t)[1..] == t;
  }

  /** The cost of a path is the cost of its first leg plus the cost of the
      rest, started where the first leg ends. */
  lemma {:induction false} SeekCostConcat(head: int, a: seq<int>, b: seq<int>)
    ensures SeekCost(head, a + b) == SeekCost(head, a) + SeekCost(Last(head, a), b)
    ensures Last(head, a + b) == Last(Last(head, a), b)
    decreases |a|
  {
    if a == [] {
      EmptyConcat(b);
    } else {
      assert (a + b)[1..] == a[1..] + b;
      SeekCostConcat(a[0], a[1..], b);
    }
  }

  /** A sweep that only moves up costs its span: final position minus start. */
  lemma {:induction false} SeekCostAscending(head: int, s: seq<int>)
    requires Ascending([head] + s)
    ensures Last(head, s) >= head
    ensures SeekCost(head, s) == Last(head, s) - head
    decreases |s|
  {
    if s != [] {
      var p := [head] + s;
      assert p[0] == head && p[1] == s[0];
      assert Ascending([s[0]] + s[1..]) by {
        assert [s[0]] + s[1..] == s;
        forall i, j | 0 <= i < j < |s| ensures s[i] <= s[j] {
          assert s[i] == p[i + 1] && s[j] == p[j + 1];
        }
      }
      assert Last(head, s) == Last(s[0], s[1..]);
      SeekCostAscending(s[0], s[1..]);
    }
  }

  /** A sweep that only moves down costs start minus final position. */
  lemma {:induction false} SeekCostDescending(head: int, s: seq<int>)
    requires Descending([head] + s)
    ensures Last(head, s) <= head
    ensures SeekCost(head, s) == head - Last(head, s)
    decreases |s|
  {
    if s != [] {
      var p := [head] + s;
      assert p[0] == head && p[1] == s[0];
      assert Descending([s[0]] + s[1..]) by {
        assert [s[0]] + s[1..] == s;
        forall i, j | 0 <= i < j < |s| ensures s[i] >= s[j] {
          assert s[i] == p[i + 1] && s[j] == p[j + 1];
        }
      }
      assert Last(head, s) == Last(s[0], s[1..]);
      SeekCostDescending(s[0], s[1..]);
    }
  }

  /** Visiting one extra position `x` between two legs never lowers the cost
      (the triangle inequality). */
  lemma SeekCostDetour(head: int, a: seq<int>, x: int, b: seq<int>)
    ensures SeekCost(head, a + [x] + b) >= SeekCost(head, a + b)
  {
    var p := Last(head, a);
    SeekCostConcat(head, a, [x] + b);
    SeekCostConcat(head, a, b);
    ConcatAssoc(a, [x], b);
    SplitConcat([x], b);
    if b != [] {
      assert Abs(p - b[0]) <= Abs(p - x) + Abs(x - b[0]);
    }
  }
}
