/** The Flask back end's schedulers of disk_scheduler.py. Every generator
    returns the service order with the head position as its first element,
    and the total head movement measured along it. SCAN and LOOK take a
    direction, which is 'right' or anything else; the end track SCAN and
    C-SCAN aim for is the largest of the requests and the head. */
module DiskSchedulerPy {
  import opened Tracks
  import opened Seek
  import opened Nearest
  import opened Disciplines
  import SweepCosts

  datatype Schedule = Schedule(sequence: seq<int>, totalSeekTime: nat)

  /** `calculate_seek_time`: the sum of the distances between neighbouring
      entries of `sequence`. */
  function CalculateSeekTime(sequence: seq<int>): (total: nat)
    ensures |sequence| <= 1 ==> total == 0
  {
    if |sequence| <= 1 then 0
    else Abs(sequence[1] - sequence[0]) + CalculateSeekTime(sequence[1..])
  }

  /** Measured along a path that starts at the head, the total is the head
      movement of the rest of the path. */
  lemma {:induction false} CalculateSeekTimeFromHead(head: int, s: seq<int>)
    ensures CalculateSeekTime([head] + s) == SeekCost(head, s)
    decreases |s|
  {
    if s != [] {
      assert ([head] + s)[1..] == [s[0]] + s[1..];
      CalculateSeekTimeFromHead(s[0], s[1..]);
    }
  }

  /** Python's `min`: the least entry. */
  function MinOf(d: seq<int>): (m: int)
    requires |d| > 0
    ensures m in d
    ensures forall j :: 0 <= j < |d| ==> m <= d[j]
  {
    if |d| == 1 then d[0]
    else
      var rest := MinOf(d[1..]);
      if d[0] <= rest then d[0] else rest
  }

  /** Python's `max`: the greatest entry. */
  function MaxOf(d: seq<int>): (m: int)
    requires |d| > 0
    ensures m in d
    ensures forall j :: 0 <= j < |d| ==> d[j] <= m
  {
    if |d| == 1 then d[0]
    else
      var rest := MaxOf(d[1..]);
      if d[0] >= rest then d[0] else rest
  }

  /** `distances.index(min(distances))` picks the first entry of least
      distance: the same request as the pick of script.js and
      Disk_Scheduling.cpp. */
  lemma IndexOfMinimumIsFirstNearest(s: seq<int>, pos: int)
    requires |s| > 0
    ensures IndexOf(Distances(s, pos), MinOf(Distances(s, pos))) == FirstNearest(s, pos)
  {
    var d := Distances(s, pos);
    var i := IndexOf(d, MinOf(d));
    FirstMinimumUnique(d, i);
  }

  /** A `for` loop over `tracks` that appends to `sequence` each track on
      `side` of `head`. */
  method AppendWhere(sequence: seq<int>, tracks: seq<int>, head: int, side: Side) returns (extended: seq<int>)
    ensures extended == sequence + Select(tracks, head, side)
  {
    extended := sequence;
    for i := 0 to |tracks|
      invariant extended == sequence + Select(tracks[..i], head, side)
    {
      assert tracks[..i + 1] == tracks[..i] + [tracks[i]];
      SelectAppend(tracks[..i], tracks[i], head, side);
      if OnSide(tracks[i], head, side) {
        extended := extended + [tracks[i]];
      } else {
        ConcatEmpty(Select(tracks[..i], head, side));
      }
    }
    assert tracks[..|tracks|] == tracks;
  }

  /** The loop over `reversed(sorted_tracks)` takes the selected tracks in
      descending order: a down pass. */
  lemma ReversedLoopIsDownPass(tracks: seq<int>, head: int, side: Side)
    ensures Select(Reverse(SortAsc(tracks)), head, side) == Pass(tracks, head, side, false)
  {
    SelectReverse(SortAsc(tracks), head, side);
  }

  /** One sweep of `scan`, `cscan`, `look` or `clook`: the `for` loop over
      `sorted_tracks` (up) or `reversed(sorted_tracks)` (down) that appends
      the tracks on `side` of the head. */
  method AppendPass(sequence: seq<int>, sortedTracks: seq<int>, tracks: seq<int>, head: int, side: Side, up: bool)
    returns (extended: seq<int>)
    requires sortedTracks == SortAsc(tracks)
    ensures extended == sequence + Pass(tracks, head, side, up)
  {
    if up {
      extended := AppendWhere(sequence, sortedTracks, head, side);
    } else {
      extended := AppendWhere(sequence, Reverse(sortedTracks), head, side);
      ReversedLoopIsDownPass(tracks, head, side);
    }
  }

  /** LOOK towards the left: the requests at or below the head descending,
      then those above it ascending. */
  function LeftLookOrder(s: seq<int>, h: int): seq<int> {
    Pass(s, h, AtOrBelow, false) + Pass(s, h, Above, true)
  }

  /** SCAN towards the left: like LOOK towards the left, with track 0 visited
      between the sweeps unless the head already rests there. */
  function LeftScanOrder(s: seq<int>, h: int): seq<int> {
    var down := Pass(s, h, AtOrBelow, false);
    down + (if Last(h, down) != 0 then [0] else []) + Pass(s, h, Above, true)
  }

  /** C-SCAN: the requests at or above the head ascending, track 0, then the
      requests below the head ascending. */
  function CScanOrderPy(s: seq<int>, h: int): seq<int> {
    Pass(s, h, AtOrAbove, true) + [0] + Pass(s, h, Below, true)
  }

  /** The right sweep ends on the largest of the requests and the head, so
      the `max_track` visit after it never happens. */
  lemma UpSweepEndsAtMax(tracks: seq<int>, head: int)
    ensures Last(head, Pass(tracks, head, AtOrAbove, true)) == MaxOf(tracks + [head])
  {
    var up := Pass(tracks, head, AtOrAbove, true);
    var top := Last(head, up);
    var all := tracks + [head];
    var m := MaxOf(all);
    UpSweepEndsHighest(tracks, head);
    assert AllAtMost(all, top) by {
      forall i | 0 <= i < |all| ensures all[i] <= top {
        if i < |tracks| {
          assert all[i] == tracks[i];
        }
      }
    }
    assert top in all by {
      if up != [] {
        SelectMultiset(SortAsc(tracks), head, AtOrAbove);
        assert up[|up| - 1] in multiset(up);
        assert top in multiset(tracks);
      }
    }
  }

  /** LOOK towards the left is exactly the arrangement that sweeps down over
      the requests at or below the head, then up over the rest; it services
      each request once. */
  lemma LeftLookCharacterized(o: seq<int>, s: seq<int>, h: int)
    ensures o == LeftLookOrder(s, h) <==> IsTwoPass(o, s, h, AtOrBelow, false, Above, true)
    ensures multiset(LeftLookOrder(s, h)) == multiset(s)
  {
    TwoPassCharacterized(o, s, h, AtOrBelow, false, Above, true);
    TwoPassPermutation(s, h, AtOrBelow, false, true);
  }

  /** With no negative track numbers and the head on the disk, SCAN towards
      the left moves the head down to track 0, then up to the highest request
      above the head. */
  lemma LeftScanCost(s: seq<int>, h: int)
    requires AllAtLeast(s, 0) && 0 <= h
    ensures SeekCost(h, LeftScanOrder(s, h)) == h + Last(0, Pass(s, h, Above, true))
  {
    var down := Pass(s, h, AtOrBelow, false);
    var zero: seq<int> := if Last(h, down) != 0 then [0] else [];
    var up := Pass(s, h, Above, true);
    var first := down + zero;
    DownToZero(s, h);
    assert [h] + down + zero == [h] + first;
    SeekCostDescending(h, first);
    assert Last(h, first) == 0;
    UpFromZero(s, h);
    SeekCostAscending(0, up);
    SeekCostConcat(h, first, up);
    assert LeftScanOrder(s, h) == first + up;
  }

  /** SCAN towards the left services every request once, and adds track 0
      when the down sweep does not already end there. */
  lemma LeftScanPermutation(s: seq<int>, h: int)
    ensures var down := Pass(s, h, AtOrBelow, false);
            multiset(LeftScanOrder(s, h)) ==
              multiset(s) + (if Last(h, down) != 0 then multiset{0} else multiset{})
  {
    TwoPassPermutation(s, h, AtOrBelow, false, true);
  }

  /** The down sweep towards the left, followed by the visit to track 0 when
      it is made, only moves down. */
  lemma DownToZero(s: seq<int>, h: int)
    requires AllAtLeast(s, 0) && 0 <= h
    ensures var down := Pass(s, h, AtOrBelow, false);
            Descending([h] + down + (if Last(h, down) != 0 then [0] else []))
  {
    var down := Pass(s, h, AtOrBelow, false);
    var sel := Select(SortAsc(s), h, AtOrBelow);
    SelectAscending(SortAsc(s), h, AtOrBelow);
    ReverseOrder(sel);
    PassOnSide(s, h, AtOrBelow, false);
    SweepCosts.PassWithin(s, h, AtOrBelow, false);
    BoundsBySubMultiset(down, s, 0, 0);
    DescendingCons(h, down);
    if Last(h, down) != 0 {
      assert AllAtLeast([h] + down, 0) by {
        forall i | 0 <= i < |[h] + down| ensures 0 <= ([h] + down)[i] {
          if i > 0 {
            assert ([h] + down)[i] == down[i - 1];
          }
        }
      }
      DescendingSnoc([h] + down, 0);
    } else {
      ConcatEmpty([h] + down);
    }
  }

  /** The up sweep towards the left starts above the head, so it only moves
      up from track 0. */
  lemma UpFromZero(s: seq<int>, h: int)
    requires 0 <= h
    ensures Ascending([0] + Pass(s, h, Above, true))
  {
    var up := Pass(s, h, Above, true);
    SelectAscending(SortAsc(s), h, Above);
    PassOnSide(s, h, Above, true);
    AscendingCons(0, up);
  }

  /** The Python C-SCAN order is the C-LOOK order with track 0 visited
      between its passes; the visit never makes it cheaper. */
  lemma CScanPyNoCheaperThanCLook(s: seq<int>, h: int)
    ensures multiset(CScanOrderPy(s, h)) == multiset(s) + multiset{0}
    ensures SeekCost(h, CScanOrderPy(s, h)) >= SeekCost(h, CLookOrder(s, h))
  {
    TwoPassPermutation(s, h, AtOrAbove, true, true);
    SeekCostDetour(h, Pass(s, h, AtOrAbove, true), 0, Pass(s, h, Below, true));
  }

  /** The order after the head that the generator of `d` returns when SCAN
      and LOOK sweep towards the right, their default direction. */
  function RightwardOrder(d: Discipline, tracks: seq<int>, head: int): seq<int> {
    match d
    case Fcfs => tracks
    case Sstf => SstfOrder(tracks, head)
    case Scan => LookOrder(tracks, head)
    case CScan => CScanOrderPy(tracks, head)
    case Look => LookOrder(tracks, head)
    case CLook => CLookOrder(tracks, head)
  }

  /** `fcfs`: the head, then the requests in submitted order. */
  function Fcfs(tracks: seq<int>, head: int): (r: Schedule)
    ensures r.sequence == [head] + tracks
    ensures r.totalSeekTime == SeekCost(head, tracks)
  {
    var sequence := [head] + tracks;
    CalculateSeekTimeFromHead(head, tracks);
    Schedule(sequence, CalculateSeekTime(sequence))
  }

  /** `sstf`: repeatedly appends and removes the first pending request of
      least distance from the current position. */
  method Sstf(tracks: seq<int>, head: int) returns (r: Schedule)
    ensures r.sequence == [head] + SstfOrder(tracks, head)
    ensures r.totalSeekTime == SeekCost(head, SstfOrder(tracks, head))
  {
    var sequence := [head];
    var remaining := tracks;
    var current := head;
    while |remaining| > 0
      invariant sequence + SstfOrder(remaining, current) == [head] + SstfOrder(tracks, head)
      decreases |remaining|
    {
      var distances := Distances(remaining, current);
      var minIndex := IndexOf(distances, MinOf(distances));
      IndexOfMinimumIsFirstNearest(remaining, current);
      var nextTrack := remaining[minIndex];
      assert SstfOrder(remaining, current) == [nextTrack] + SstfOrder(RemoveAt(remaining, minIndex), nextTrack);
      ConcatAssoc(sequence, [nextTrack], SstfOrder(RemoveAt(remaining, minIndex), nextTrack));
      current := nextTrack;
      sequence := sequence + [nextTrack];
      remaining := RemoveAt(remaining, minIndex);
    }
    ConcatEmpty(sequence);
    CalculateSeekTimeFromHead(head, SstfOrder(tracks, head));
    r := Schedule(sequence, CalculateSeekTime(sequence));
  }

  /** `scan`: towards the right it is LOOK (the `max_track` visit never
      happens); towards the left it sweeps down to track 0 first. */
  method Scan(tracks: seq<int>, head: int, direction: string := "right") returns (r: Schedule)
    ensures direction == "right" ==>
      r.sequence == [head] + LookOrder(tracks, head) &&
      r.totalSeekTime == SeekCost(head, LookOrder(tracks, head))
    ensures direction != "right" ==>
      r.sequence == [head] + LeftScanOrder(tracks, head) &&
      r.totalSeekTime == SeekCost(head, LeftScanOrder(tracks, head))
  {
    var sortedTracks := SortAsc(tracks);
    var sequence := [head];
    var maxTrack := MaxOf(tracks + [head]);
    ghost var order;
    if direction == "right" {
      order := LookOrder(tracks, head);
      sequence := AppendPass(sequence, sortedTracks, tracks, head, AtOrAbove, true);
      LastOfPath(head, Pass(tracks, head, AtOrAbove, true));
      UpSweepEndsAtMax(tracks, head);
      if sequence[|sequence| - 1] != maxTrack {
        assert false;
      }
      sequence := AppendPass(sequence, sortedTracks, tracks, head, Below, false);
      ConcatAssoc([head], Pass(tracks, head, AtOrAbove, true), Pass(tracks, head, Below, false));
    } else {
      order := LeftScanOrder(tracks, head);
      ghost var down := Pass(tracks, head, AtOrBelow, false);
      sequence := AppendPass(sequence, sortedTracks, tracks, head, AtOrBelow, false);
      LastOfPath(head, down);
      ghost var zero: seq<int> := [];
      if sequence[|sequence| - 1] != 0 {
        sequence := sequence + [0];
        zero := [0];
      } else {
        ConcatEmpty(sequence);
      }
      sequence := AppendPass(sequence, sortedTracks, tracks, head, Above, true);
      ConcatRegroup([head], down, zero, Pass(tracks, head, Above, true));
    }
    CalculateSeekTimeFromHead(head, order);
    r := Schedule(sequence, CalculateSeekTime(sequence));
  }

  /** `cscan`: the right sweep, track 0 in every case, then the requests
      below the head ascending. */
  method CScan(tracks: seq<int>, head: int) returns (r: Schedule)
    ensures r.sequence == [head] + CScanOrderPy(tracks, head)
    ensures r.totalSeekTime == SeekCost(head, CScanOrderPy(tracks, head))
  {
    var sortedTracks := SortAsc(tracks);
    var sequence := [head];
    var maxTrack := MaxOf(tracks + [head]);
    sequence := AppendPass(sequence, sortedTracks, tracks, head, AtOrAbove, true);
    LastOfPath(head, Pass(tracks, head, AtOrAbove, true));
    UpSweepEndsAtMax(tracks, head);
    if sequence[|sequence| - 1] != maxTrack {
      assert false;
    }
    sequence := sequence + [0];
    sequence := AppendPass(sequence, sortedTracks, tracks, head, Below, true);
    ConcatRegroup([head], Pass(tracks, head, AtOrAbove, true), [0], Pass(tracks, head, Below, true));
    CalculateSeekTimeFromHead(head, CScanOrderPy(tracks, head));
    r := Schedule(sequence, CalculateSeekTime(sequence));
  }

  /** `look`: both sweeps, in the order the direction asks for. */
  method Look(tracks: seq<int>, head: int, direction: string := "right") returns (r: Schedule)
    ensures direction == "right" ==>
      r.sequence == [head] + LookOrder(tracks, head) &&
      r.totalSeekTime == SeekCost(head, LookOrder(tracks, head))
    ensures direction != "right" ==>
      r.sequence == [head] + LeftLookOrder(tracks, head) &&
      r.totalSeekTime == SeekCost(head, LeftLookOrder(tracks, head))
  {
    var sortedTracks := SortAsc(tracks);
    var sequence := [head];
    ghost var order;
    if direction == "right" {
      order := LookOrder(tracks, head);
      sequence := AppendPass(sequence, sortedTracks, tracks, head, AtOrAbove, true);
      sequence := AppendPass(sequence, sortedTracks, tracks, head, Below, false);
      ConcatAssoc([head], Pass(tracks, head, AtOrAbove, true), Pass(tracks, head, Below, false));
    } else {
      order := LeftLookOrder(tracks, head);
      sequence := AppendPass(sequence, sortedTracks, tracks, head, AtOrBelow, false);
      sequence := AppendPass(sequence, sortedTracks, tracks, head, Above, true);
      ConcatAssoc([head], Pass(tracks, head, AtOrBelow, false), Pass(tracks, head, Above, true));
    }
    CalculateSeekTimeFromHead(head, order);
    r := Schedule(sequence, CalculateSeekTime(sequence));
  }

  /** `clook`: the right sweep, then the requests below the head ascending. */
  method CLook(tracks: seq<int>, head: int) returns (r: Schedule)
    ensures r.sequence == [head] + CLookOrder(tracks, head)
    ensures r.totalSeekTime == SeekCost(head, CLookOrder(tracks, head))
  {
    var sortedTracks := SortAsc(tracks);
    var sequence := [head];
    sequence := AppendPass(sequence, sortedTracks, tracks, head, AtOrAbove, true);
    sequence := AppendPass(sequence, sortedTracks, tracks, head, Below, true);
    ConcatAssoc([head], Pass(tracks, head, AtOrAbove, true), Pass(tracks, head, Below, true));
    CalculateSeekTimeFromHead(head, CLookOrder(tracks, head));
    r := Schedule(sequence, CalculateSeekTime(sequence));
  }
}
