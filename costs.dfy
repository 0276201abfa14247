/** Head movement of the sweep disciplines in closed form, and the price of
    the end visits SCAN and C-SCAN make. */
module SweepCosts {
  import opened Tracks
  import opened Seek
  import opened Disciplines

  /** Every request of the down pass is below the head, and the pass only
      moves down. */
  lemma DownPass(s: seq<int>, h: int)
    ensures Descending(Pass(s, h, Below, false))
    ensures AllAtMost(Pass(s, h, Below, false), h - 1)
  {
    var sel := Select(SortAsc(s), h, Below);
    SelectAscending(SortAsc(s), h, Below);
    ReverseOrder(sel);
    PassOnSide(s, h, Below, false);
  }

  /** Every request of the wrap-around pass is below the head, and the pass
      only moves up. */
  lemma WrapPass(s: seq<int>, h: int)
    ensures Ascending(Pass(s, h, Below, true))
    ensures AllAtMost(Pass(s, h, Below, true), h - 1)
    ensures AllAtLeast(s, 0) ==> AllAtLeast(Pass(s, h, Below, true), 0)
  {
    var sorted := SortAsc(s);
    SelectAscending(sorted, h, Below);
    PassOnSide(s, h, Below, true);
    SelectMultiset(sorted, h, Below);
    BoundsBySubMultiset(Select(sorted, h, Below), sorted, 0, 0);
    BoundsBySubMultiset(sorted, s, 0, 0);
  }

  /** LOOK moves the head up to the highest request at or above it, `top`,
      then down to the lowest request below it. */
  lemma LookCost(s: seq<int>, h: int)
    ensures var up := Pass(s, h, AtOrAbove, true);
            var top := Last(h, up);
            SeekCost(h, LookOrder(s, h)) == (top - h) + (top - Last(top, Pass(s, h, Below, false)))
  {
    var up := Pass(s, h, AtOrAbove, true);
    var down := Pass(s, h, Below, false);
    var top := Last(h, up);
    UpSweepAscends(s, h);
    SeekCostAscending(h, up);
    DownPass(s, h);
    DescendingCons(top, down);
    SeekCostDescending(top, down);
    SeekCostConcat(h, up, down);
  }

  /** A pass services requests of `s` only. */
  lemma PassWithin(s: seq<int>, h: int, side: Side, up: bool)
    ensures multiset(Pass(s, h, side, up)) <= multiset(s)
  {
    var sel := Select(SortAsc(s), h, side);
    SelectMultiset(SortAsc(s), h, side);
    ReverseMultiset(sel);
  }

  /** With the head and every request between `lo` and `hi`, the up pass
      ends between them too. */
  lemma UpPassWithin(s: seq<int>, h: int, lo: int, hi: int)
    requires AllAtLeast(s, lo) && AllAtMost(s, hi) && lo <= h <= hi
    ensures lo <= Last(h, Pass(s, h, AtOrAbove, true)) <= hi
  {
    PassWithin(s, h, AtOrAbove, true);
    BoundsBySubMultiset(Pass(s, h, AtOrAbove, true), s, lo, hi);
  }

  /** With every request at or below `end`, the up pass followed by a visit
      to `end` still only moves up from the head. */
  lemma ClimbToEnd(s: seq<int>, h: int, end: int)
    requires AllAtMost(s, end) && h <= end
    ensures Ascending([h] + Pass(s, h, AtOrAbove, true) + [end])
  {
    var up := Pass(s, h, AtOrAbove, true);
    UpSweepAscends(s, h);
    assert AllAtMost(up, end) by {
      PassWithin(s, h, AtOrAbove, true);
      BoundsBySubMultiset(up, s, 0, end);
    }
    assert AllAtMost([h] + up, end) by {
      forall i | 0 <= i < |[h] + up| ensures ([h] + up)[i] <= end {
        if i > 0 {
          assert ([h] + up)[i] == up[i - 1];
        }
      }
    }
    AscendingSnoc([h] + up, end);
  }

  /** SCAN, with every request and the head at or below the end track, moves
      the head up to the end track, then down to the lowest request below the
      head. */
  lemma ScanCost(s: seq<int>, h: int, end: int)
    requires AllAtMost(s, end) && h <= end
    ensures SeekCost(h, ScanOrder(s, h, end)) == (end - h) + (end - Last(end, Pass(s, h, Below, false)))
  {
    var climb := Pass(s, h, AtOrAbove, true) + [end];
    var down := Pass(s, h, Below, false);
    ClimbToEnd(s, h, end);
    ConcatAssoc([h], Pass(s, h, AtOrAbove, true), [end]);
    SeekCostAscending(h, climb);
    DownPass(s, h);
    DescendingCons(end, down);
    SeekCostDescending(end, down);
    SeekCostConcat(h, climb, down);
    assert ScanOrder(s, h, end) == climb + down;
  }

  /** C-SCAN, with every request in [0, end] and the head at or below `end`,
      moves the head up to the end track, jumps back to track 0 and climbs to
      the highest request below the head. */
  lemma CScanCost(s: seq<int>, h: int, end: int)
    requires AllAtLeast(s, 0) && AllAtMost(s, end) && h <= end && 0 <= end
    ensures SeekCost(h, CScanOrder(s, h, end)) == (end - h) + end + Last(0, Pass(s, h, Below, true))
  {
    var climb := Pass(s, h, AtOrAbove, true) + [end];
    var wrap := Pass(s, h, Below, true);
    ClimbToEnd(s, h, end);
    ConcatAssoc([h], Pass(s, h, AtOrAbove, true), [end]);
    SeekCostAscending(h, climb);
    WrapPass(s, h);
    AscendingCons(0, wrap);
    SeekCostAscending(0, wrap);
    SplitConcat([0], wrap);
    SeekCostConcat(h, climb, [0] + wrap);
    CScanRegroup(Pass(s, h, AtOrAbove, true), end, wrap);
  }

  /** C-LOOK moves the head up to the highest request at or above it, `top`,
      jumps down to the lowest request below the head and climbs to the
      highest of those. */
  lemma CLookCost(s: seq<int>, h: int)
    ensures var top := Last(h, Pass(s, h, AtOrAbove, true));
            var wrap := Pass(s, h, Below, true);
            SeekCost(h, CLookOrder(s, h)) ==
              (top - h) + (if wrap == [] then 0 else (top - wrap[0]) + (wrap[|wrap| - 1] - wrap[0]))
  {
    var up := Pass(s, h, AtOrAbove, true);
    var wrap := Pass(s, h, Below, true);
    var top := Last(h, up);
    UpSweepAscends(s, h);
    SeekCostAscending(h, up);
    SeekCostConcat(h, up, wrap);
    if wrap != [] {
      WrapPass(s, h);
      FirstAndRest(wrap);
      SeekCostAscending(wrap[0], wrap[1..]);
      assert Last(wrap[0], wrap[1..]) == wrap[|wrap| - 1];
    }
  }

  /** The end-track visit never makes SCAN cheaper than LOOK. */
  lemma ScanNoCheaperThanLook(s: seq<int>, h: int, end: int)
    ensures SeekCost(h, ScanOrder(s, h, end)) >= SeekCost(h, LookOrder(s, h))
  {
    SeekCostDetour(h, Pass(s, h, AtOrAbove, true), end, Pass(s, h, Below, false));
  }

  /** The visits to the end track and to track 0 never make C-SCAN cheaper
      than C-LOOK. */
  lemma CScanNoCheaperThanCLook(s: seq<int>, h: int, end: int)
    ensures SeekCost(h, CScanOrder(s, h, end)) >= SeekCost(h, CLookOrder(s, h))
  {
    var up := Pass(s, h, AtOrAbove, true);
    var wrap := Pass(s, h, Below, true);
    SeekCostDetour(h, up, end, [0] + wrap);
    SeekCostDetour(h, up, 0, wrap);
    CScanRegroup(up, end, wrap);
    ConcatAssoc(up, [0], wrap);
  }

  /** The C-SCAN order as its climb to the end track followed by the
      wrap-around from track 0. */
  lemma CScanRegroup(up: seq<int>, end: int, wrap: seq<int>)
    ensures up + [end, 0] + wrap == up + [end] + ([0] + wrap)
  {
    assert [end, 0] == [end] + [0];
    ConcatAssoc(up, [end], [0]);
    ConcatAssoc(up + [end], [0], wrap);
  }

  /** Going on from the end of `up` to `end` and then to track 0 costs,
      against going to track 0 straight away, the way to `end` and back. */
  lemma EndDetourToZero(h: int, up: seq<int>, end: int, wrap: seq<int>)
    requires 0 <= Last(h, up) <= end
    ensures SeekCost(h, up + [end, 0] + wrap) == SeekCost(h, up + [0] + wrap) + 2 * (end - Last(h, up))
  {
    CScanRegroup(up, end, wrap);
    ConcatAssoc(up, [end], [0] + wrap);
    SeekCostConcat(h, up, [end] + ([0] + wrap));
    SeekCostCons(Last(h, up), end, [0] + wrap);
    SeekCostCons(end, 0, wrap);
    ConcatAssoc(up, [0], wrap);
    SeekCostConcat(h, up, [0] + wrap);
    SeekCostCons(Last(h, up), 0, wrap);
  }

  /** Going on from the end of `up` to `end` before turning down to `down`,
      which starts no higher than that end, costs the way to `end` and back
      when `down` has requests, and the way to `end` alone when it has none. */
  lemma EndDetourBeforeDown(h: int, up: seq<int>, end: int, down: seq<int>)
    requires Last(h, up) <= end
    requires down != [] ==> down[0] <= Last(h, up)
    ensures SeekCost(h, up + [end] + down) ==
              SeekCost(h, up + down) + (if down == [] then 1 else 2) * (end - Last(h, up))
  {
    ConcatAssoc(up, [end], down);
    SeekCostConcat(h, up, [end] + down);
    SeekCostConcat(h, up, down);
    SeekCostCons(Last(h, up), end, down);
    if down != [] {
      assert down == [down[0]] + down[1..];
      SeekCostCons(end, down[0], down[1..]);
      SeekCostCons(Last(h, up), down[0], down[1..]);
    }
  }
}
