/** The six head-scheduling disciplines as service orders. script.js and
    Disk_Scheduling.cpp compute the same orders: SCAN and C-SCAN visit the
    hard-coded end track 199, and C-SCAN then jumps to track 0. A sweep
    order is built from passes: the requests on one side of the head,
    sorted, in ascending or descending order. */
module Disciplines {
  import opened Tracks
  import opened Seek
  import opened Nearest

  datatype Discipline = Fcfs | Sstf | Scan | CScan | Look | CLook

  /** The order in which the optimiser tries the disciplines; on equal cost
      the earlier one wins. */
  const Ranking: seq<Discipline> := [Fcfs, Sstf, Scan, CScan, Look, CLook]

  /** The end track that SCAN and C-SCAN sweep to in script.js and
      Disk_Scheduling.cpp. */
  const LastTrack: int := 199

  /** The requests of `s` on `side` of `h`, sorted, ascending when `up`,
      descending otherwise. */
  function Pass(s: seq<int>, h: int, side: Side, up: bool): seq<int> {
    var part := Select(SortAsc(s), h, side);
    if up then part else Reverse(part)
  }

  /** `part` holds every request of `s` on `side` of `h`, with multiplicity,
      and nothing else (see SelectMultiset), in ascending order when `up`,
      descending otherwise. */
  ghost predicate IsPass(part: seq<int>, s: seq<int>, h: int, side: Side, up: bool) {
    && multiset(part) == multiset(Select(s, h, side))
    && (if up then Ascending(part) else Descending(part))
  }

  /** The number of requests of `s` on `side` of `h`. */
  function Count(s: seq<int>, h: int, side: Side): nat {
    |Select(s, h, side)|
  }

  /** A pass is the only arrangement of those requests in that direction. */
  lemma PassCharacterized(part: seq<int>, s: seq<int>, h: int, side: Side, up: bool)
    ensures part == Pass(s, h, side, up) <==> IsPass(part, s, h, side, up)
  {
    var sorted := SortAsc(s);
    var sel := Select(sorted, h, side);
    SelectSameElements(sorted, s, h, side);
    SelectAscending(sorted, h, side);
    ReverseMultiset(sel);
    ReverseOrder(sel);
    assert IsPass(Pass(s, h, side, up), s, h, side, up);
    if IsPass(part, s, h, side, up) {
      if up {
        AscendingUnique(part, sel);
      } else {
        ReverseMultiset(part);
        ReverseOrder(part);
        AscendingUnique(Reverse(part), sel);
        ReverseReverse(part);
      }
    }
  }

  lemma PassLength(s: seq<int>, h: int, side: Side, up: bool)
    ensures |Pass(s, h, side, up)| == Count(s, h, side)
  {
    SelectSameElements(SortAsc(s), s, h, side);
  }

  /** `o` holds the requests on side `first` in one pass, then those on side
      `second` in another. */
  ghost predicate IsTwoPass(o: seq<int>, s: seq<int>, h: int, first: Side, firstUp: bool, second: Side, secondUp: bool) {
    var m := Count(s, h, first);
    m <= |o| && IsPass(o[..m], s, h, first, firstUp) && IsPass(o[m..], s, h, second, secondUp)
  }

  /** Two passes in a row are the only arrangement of that shape. */
  lemma TwoPassCharacterized(o: seq<int>, s: seq<int>, h: int, first: Side, firstUp: bool, second: Side, secondUp: bool)
    ensures o == Pass(s, h, first, firstUp) + Pass(s, h, second, secondUp)
            <==> IsTwoPass(o, s, h, first, firstUp, second, secondUp)
  {
    var m := Count(s, h, first);
    var p1 := Pass(s, h, first, firstUp);
    var p2 := Pass(s, h, second, secondUp);
    PassLength(s, h, first, firstUp);
    if o == p1 + p2 {
      SplitConcat(p1, p2);
      PassCharacterized(p1, s, h, first, firstUp);
      PassCharacterized(p2, s, h, second, secondUp);
    }
    if IsTwoPass(o, s, h, first, firstUp, second, secondUp) {
      PassCharacterized(o[..m], s, h, first, firstUp);
      PassCharacterized(o[m..], s, h, second, secondUp);
      SplitAt(o, m);
    }
  }

  /** A pass over one side followed by a pass over the other services every
      request exactly once. */
  lemma TwoPassPermutation(s: seq<int>, h: int, side: Side, up1: bool, up2: bool)
    ensures multiset(Pass(s, h, side, up1) + Pass(s, h, Opposite(side), up2)) == multiset(s)
  {
    var p1 := Pass(s, h, side, up1);
    var p2 := Pass(s, h, Opposite(side), up2);
    PassCharacterized(p1, s, h, side, up1);
    PassCharacterized(p2, s, h, Opposite(side), up2);
    SelectPartition(s, h, side);
  }

  /** Every element of a pass lies on its side of the head. */
  lemma PassOnSide(s: seq<int>, h: int, side: Side, up: bool)
    ensures forall i :: 0 <= i < |Pass(s, h, side, up)| ==> OnSide(Pass(s, h, side, up)[i], h, side)
  {
    var sel := Select(SortAsc(s), h, side);
    if !up {
      forall i | 0 <= i < |sel| ensures OnSide(Reverse(sel)[i], h, side) {
        assert Reverse(sel)[i] == sel[|sel| - 1 - i];
      }
    }
  }

  /** LOOK: the requests at or above the head ascending, then those below it
      descending. */
  function LookOrder(s: seq<int>, h: int): seq<int> {
    Pass(s, h, AtOrAbove, true) + Pass(s, h, Below, false)
  }

  /** C-LOOK: the requests at or above the head ascending, then those below it
      ascending. */
  function CLookOrder(s: seq<int>, h: int): seq<int> {
    Pass(s, h, AtOrAbove, true) + Pass(s, h, Below, true)
  }

  /** SCAN: like LOOK, with the end track visited between the two sweeps. */
  function ScanOrder(s: seq<int>, h: int, end: int): seq<int> {
    Pass(s, h, AtOrAbove, true) + [end] + Pass(s, h, Below, false)
  }

  /** C-SCAN: like C-LOOK, with the end track and then track 0 visited between
      the two sweeps. */
  function CScanOrder(s: seq<int>, h: int, end: int): seq<int> {
    Pass(s, h, AtOrAbove, true) + [end, 0] + Pass(s, h, Below, true)
  }

  /** The service order each discipline produces in script.js and
      Disk_Scheduling.cpp; the head position is not part of it. */
  function ServiceOrder(d: Discipline, s: seq<int>, h: int): seq<int> {
    match d
    case Fcfs => s
    case Sstf => SstfOrder(s, h)
    case Scan => ScanOrder(s, h, LastTrack)
    case CScan => CScanOrder(s, h, LastTrack)
    case Look => LookOrder(s, h)
    case CLook => CLookOrder(s, h)
  }

  /** LOOK is exactly the arrangement that sweeps up over the requests at or
      above the head, then down over the rest; it services each request once. */
  lemma LookCharacterized(o: seq<int>, s: seq<int>, h: int)
    ensures o == LookOrder(s, h) <==> IsTwoPass(o, s, h, AtOrAbove, true, Below, false)
    ensures multiset(LookOrder(s, h)) == multiset(s)
  {
    TwoPassCharacterized(o, s, h, AtOrAbove, true, Below, false);
    TwoPassPermutation(s, h, AtOrAbove, true, false);
  }

  /** C-LOOK is exactly the arrangement that sweeps up over the requests at or
      above the head, then up again over the rest; each request once. */
  lemma CLookCharacterized(o: seq<int>, s: seq<int>, h: int)
    ensures o == CLookOrder(s, h) <==> IsTwoPass(o, s, h, AtOrAbove, true, Below, true)
    ensures multiset(CLookOrder(s, h)) == multiset(s)
  {
    TwoPassCharacterized(o, s, h, AtOrAbove, true, Below, true);
    TwoPassPermutation(s, h, AtOrAbove, true, true);
  }

  /** SCAN has one more entry than there are requests: the end track, at the
      turn; without it SCAN is LOOK. */
  lemma ScanShape(s: seq<int>, h: int, end: int)
    ensures |ScanOrder(s, h, end)| == |s| + 1
    ensures ScanOrder(s, h, end)[Count(s, h, AtOrAbove)] == end
    ensures ScanOrder(s, h, end)[..Count(s, h, AtOrAbove)] + ScanOrder(s, h, end)[Count(s, h, AtOrAbove) + 1..] == LookOrder(s, h)
    ensures multiset(ScanOrder(s, h, end)) == multiset(s) + multiset{end}
  {
    var up := Pass(s, h, AtOrAbove, true);
    var down := Pass(s, h, Below, false);
    var o := ScanOrder(s, h, end);
    PassLength(s, h, AtOrAbove, true);
    LookCharacterized(LookOrder(s, h), s, h);
    SplitAround(up, [end], down);
    assert |o| == |LookOrder(s, h)| + 1;
    assert |LookOrder(s, h)| == |multiset(LookOrder(s, h))|;
  }

  /** C-SCAN has two more entries than there are requests: the end track and
      track 0, at the wrap; without them C-SCAN is C-LOOK. */
  lemma CScanShape(s: seq<int>, h: int, end: int)
    ensures |CScanOrder(s, h, end)| == |s| + 2
    ensures CScanOrder(s, h, end)[Count(s, h, AtOrAbove)] == end
    ensures CScanOrder(s, h, end)[Count(s, h, AtOrAbove) + 1] == 0
    ensures CScanOrder(s, h, end)[..Count(s, h, AtOrAbove)] + CScanOrder(s, h, end)[Count(s, h, AtOrAbove) + 2..] == CLookOrder(s, h)
    ensures multiset(CScanOrder(s, h, end)) == multiset(s) + multiset{end, 0}
  {
    var up := Pass(s, h, AtOrAbove, true);
    var wrap := Pass(s, h, Below, true);
    var o := CScanOrder(s, h, end);
    PassLength(s, h, AtOrAbove, true);
    CLookCharacterized(CLookOrder(s, h), s, h);
    SplitAround(up, [end, 0], wrap);
    assert |CLookOrder(s, h)| == |multiset(CLookOrder(s, h))|;
    assert multiset(o) == multiset(up) + multiset{end, 0} + multiset(wrap);
  }

  /** When no request lies below the head every sweep discipline services the
      requests in sorted order (SCAN and C-SCAN then add their end visits). */
  lemma AllAtOrAboveHead(s: seq<int>, h: int, end: int)
    requires forall i :: 0 <= i < |s| ==> s[i] >= h
    ensures LookOrder(s, h) == SortAsc(s)
    ensures CLookOrder(s, h) == SortAsc(s)
    ensures ScanOrder(s, h, end) == SortAsc(s) + [end]
    ensures CScanOrder(s, h, end) == SortAsc(s) + [end, 0]
  {
    var sorted := SortAsc(s);
    BoundsBySubMultiset(sorted, s, h, 0);
    SelectAllOrNone(sorted, h, AtOrAbove);
    SelectAllOrNone(sorted, h, Below);
    ConcatEmpty(sorted);
    ConcatEmpty(sorted + [end]);
    ConcatEmpty(sorted + [end, 0]);
  }

  /** With no requests, the orders hold only the mandatory end visits. */
  lemma NoRequests(h: int, end: int)
    ensures LookOrder([], h) == [] && CLookOrder([], h) == []
    ensures ScanOrder([], h, end) == [end]
    ensures CScanOrder([], h, end) == [end, 0]
    ensures SstfOrder([], h) == []
  {
  }

  lemma AscendingBelowLast(s: seq<int>)
    requires Ascending(s) && s != []
    ensures AllAtMost(s, s[|s| - 1])
  {
  }

  /** The up pass, entered from the head, only moves up. */
  lemma UpSweepAscends(s: seq<int>, h: int)
    ensures Ascending([h] + Pass(s, h, AtOrAbove, true))
  {
    var up := Pass(s, h, AtOrAbove, true);
    SelectAscending(SortAsc(s), h, AtOrAbove);
    PassOnSide(s, h, AtOrAbove, true);
    forall i, j | 0 <= i < j < |[h] + up| ensures ([h] + up)[i] <= ([h] + up)[j] {
      assert ([h] + up)[j] == up[j - 1];
      if i > 0 {
        assert ([h] + up)[i] == up[i - 1];
      }
    }
  }

  /** The up pass ends at or above the head and at or above every request:
      when no request is at or above the head, every request is below it. */
  lemma UpSweepEndsHighest(s: seq<int>, h: int)
    ensures Last(h, Pass(s, h, AtOrAbove, true)) >= h
    ensures AllAtMost(s, Last(h, Pass(s, h, AtOrAbove, true)))
  {
    var sorted := SortAsc(s);
    var up := Select(sorted, h, AtOrAbove);
    var low := Select(sorted, h, Below);
    AscendingSplits(sorted, h, Below);
    HighestOfSplit(low, up, h);
    BoundsBySubMultiset(s, sorted, 0, Last(h, up));
  }

  /** An ascending sequence made of a part below `h` and a part at or above
      it ends at its highest entry. */
  lemma HighestOfSplit(low: seq<int>, up: seq<int>, h: int)
    requires Ascending(low + up)
    requires forall i :: 0 <= i < |low| ==> low[i] < h
    requires forall i :: 0 <= i < |up| ==> up[i] >= h
    ensures Last(h, up) >= h
    ensures AllAtMost(low + up, Last(h, up))
  {
    var all := low + up;
    if up == [] {
      ConcatEmpty(low);
    } else {
      assert all[|all| - 1] == up[|up| - 1];
      AscendingBelowLast(all);
    }
  }
}
