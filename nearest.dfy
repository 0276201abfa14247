/** Shortest-seek-time-first: the greedy pick of the pending request nearest
    the current head position, with ties going to the request that comes
    first in the pending list, and the service order it produces. */
module Nearest {
  import opened Tracks

  /** The first index at which `d` takes its least value. */
  function FirstMinimum(d: seq<int>): (k: nat)
    requires |d| > 0
    ensures k < |d|
    ensures forall j :: 0 <= j < |d| ==> d[k] <= d[j]
    ensures forall j :: 0 <= j < k ==> d[k] < d[j]
  {
    if |d| == 1 then 0
    else
      var t := FirstMinimum(d[1..]) + 1;
      if d[0] <= d[t] then 0 else t
  }

  /** Position and tie-break determine the first minimum: any index that is
      minimal and strictly below every earlier entry is FirstMinimum. */
  lemma FirstMinimumUnique(d: seq<int>, k: nat)
    requires k < |d|
    requires forall j :: 0 <= j < |d| ==> d[k] <= d[j]
    requires forall j :: 0 <= j < k ==> d[k] < d[j]
    ensures k == FirstMinimum(d)
  {
  }

  /** Scanning one more entry: the first minimum moves to the new entry only
      when it is strictly smaller than the minimum so far. */
  lemma FirstMinimumExtend(d: seq<int>, i: nat)
    requires 0 < i < |d|
    ensures FirstMinimum(d[..i + 1]) ==
      if d[i] < d[FirstMinimum(d[..i])] then i else FirstMinimum(d[..i])
  {
    var k := FirstMinimum(d[..i]);
    var p := d[..i + 1];
    assert forall j :: 0 <= j < i ==> p[j] == d[..i][j];
    if d[i] < d[k] {
      FirstMinimumUnique(p, i);
    } else {
      FirstMinimumUnique(p, k);
    }
  }

  /** Python's first `index` of a value. */
  function IndexOf(s: seq<int>, v: int): (i: nat)
    requires v in s
    ensures i < |s| && s[i] == v
    ensures forall j :: 0 <= j < i ==> s[j] != v
  {
    if s[0] == v then 0 else 1 + IndexOf(s[1..], v)
  }

  /** The distance of each pending request from `pos`. */
  function Distances(s: seq<int>, pos: int): (d: seq<int>)
    ensures |d| == |s|
    ensures forall i :: 0 <= i < |s| ==> d[i] == Abs(pos - s[i])
  {
    seq(|s|, i requires 0 <= i < |s| => Abs(pos - s[i]))
  }

  /** The index of the request SSTF services next from `pos`: nearest, and
      of the nearest the earliest in `s`. */
  function FirstNearest(s: seq<int>, pos: int): (k: nat)
    requires |s| > 0
    ensures k < |s|
    ensures forall j :: 0 <= j < |s| ==> Abs(pos - s[k]) <= Abs(pos - s[j])
    ensures forall j :: 0 <= j < k ==> Abs(pos - s[k]) < Abs(pos - s[j])
  {
    FirstMinimum(Distances(s, pos))
  }

  /** Scanning one more pending request: it becomes the pick only when it
      is strictly nearer than the pick so far. */
  lemma FirstNearestExtend(s: seq<int>, pos: int, i: nat)
    requires 0 < i < |s|
    ensures FirstNearest(s[..i + 1], pos) ==
      if Abs(pos - s[i]) < Abs(pos - s[FirstNearest(s[..i], pos)]) then i else FirstNearest(s[..i], pos)
  {
    var d := Distances(s, pos);
    assert Distances(s[..i + 1], pos) == d[..i + 1];
    assert Distances(s[..i], pos) == d[..i];
    FirstMinimumExtend(d, i);
  }

  lemma FirstNearestUnique(s: seq<int>, pos: int, k: nat)
    requires k < |s|
    requires forall j :: 0 <= j < |s| ==> Abs(pos - s[k]) <= Abs(pos - s[j])
    requires forall j :: 0 <= j < k ==> Abs(pos - s[k]) < Abs(pos - s[j])
    ensures k == FirstNearest(s, pos)
  {
    FirstMinimumUnique(Distances(s, pos), k);
  }

  /** The pending list with its `k`-th entry taken out: JavaScript's
      `splice(k, 1)`, Python's `pop(k)`, C++'s `erase`. */
  function RemoveAt(s: seq<int>, k: nat): (r: seq<int>)
    requires k < |s|
    ensures |r| == |s| - 1
    ensures multiset(r) + multiset{s[k]} == multiset(s)
    ensures forall i :: 0 <= i < |r| ==> r[i] == if i < k then s[i] else s[i + 1]
  {
    assert s == s[..k] + [s[k]] + s[k + 1..];
    s[..k] + s[k + 1..]
  }

  /** The SSTF service order of the pending list `s` from head position `pos`. */
  function SstfOrder(s: seq<int>, pos: int): (o: seq<int>)
    ensures |o| == |s|
    decreases |s|
  {
    if s == [] then []
    else
      var k := FirstNearest(s, pos);
      [s[k]] + SstfOrder(RemoveAt(s, k), s[k])
  }

  /** The first request of `o` is at least as near `pos` as every request
      in `o`, and the rest of `o` is greedy in the same way from that request
      on: each request is the nearest of those still waiting when it is
      serviced. */
  ghost predicate Greedy(pos: int, o: seq<int>)
    decreases |o|
  {
    o == [] ||
    ((forall j :: 0 <= j < |o| ==> Abs(pos - o[0]) <= Abs(pos - o[j])) && Greedy(o[0], o[1..]))
  }

  /** SSTF services every pending request exactly once. */
  lemma {:induction false} SstfPermutation(s: seq<int>, pos: int)
    ensures multiset(SstfOrder(s, pos)) == multiset(s)
    decreases |s|
  {
    if s != [] {
      var k := FirstNearest(s, pos);
      SstfPermutation(RemoveAt(s, k), s[k]);
    }
  }

  /** Each SSTF pick is nearest the current head position among the
      requests not yet serviced. */
  lemma {:induction false} SstfGreedy(s: seq<int>, pos: int)
    ensures Greedy(pos, SstfOrder(s, pos))
    decreases |s|
  {
    if s != [] {
      var k := FirstNearest(s, pos);
      var rest := RemoveAt(s, k);
      var o' := SstfOrder(rest, s[k]);
      SstfGreedy(rest, s[k]);
      assert multiset(o') <= multiset(s) by {
        SstfPermutation(rest, s[k]);
      }
      NearestBeatsEveryPending(s, pos, o');
      GreedyCons(pos, s[k], o');
    }
  }

  /** The SSTF pick is at least as near as any request drawn from the
      pending list. */
  lemma NearestBeatsEveryPending(s: seq<int>, pos: int, t: seq<int>)
    requires |s| > 0
    requires multiset(t) <= multiset(s)
    ensures forall j :: 0 <= j < |t| ==> Abs(pos - s[FirstNearest(s, pos)]) <= Abs(pos - t[j])
  {
    forall j | 0 <= j < |t|
      ensures Abs(pos - s[FirstNearest(s, pos)]) <= Abs(pos - t[j])
    {
      assert t[j] in multiset(t);
      assert t[j] in multiset(s);
      var q :| 0 <= q < |s| && s[q] == t[j];
    }
  }

  /** A pick nearest among all the requests that follow it extends a greedy
      order by one step. */
  lemma GreedyCons(pos: int, x: int, o: seq<int>)
    requires forall j :: 0 <= j < |o| ==> Abs(pos - x) <= Abs(pos - o[j])
    requires Greedy(x, o)
    ensures Greedy(pos, [x] + o)
  {
    var p := [x] + o;
    SplitConcat([x], o);
    forall j | 0 <= j < |p| ensures Abs(pos - p[0]) <= Abs(pos - p[j]) {
      if j > 0 {
        assert p[j] == o[j - 1];
      }
    }
  }
}
