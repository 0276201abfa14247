/** How the three copies of the engine relate, and worked workloads: three
    requests entered as c, a, b with a < b < h <= c (98, 14, 37 with the head
    at 53 is an instance) for every discipline and for the optimiser's
    choice, the classic eight-request FCFS workload, an SSTF tie, names
    given in upper case to the dispatcher, and the empty workload. */
module Scenarios {
  import opened Tracks
  import opened Seek
  import opened Nearest
  import opened Disciplines
  import ScriptJs
  import DiskSchedulerPy
  import DiskSchedulingCpp
  import SweepCosts

  /** script.js and Disk_Scheduling.cpp report the same total head movement
      for every discipline. Python, which counts from the head it puts first
      in the sequence, reports that total as well for FCFS, SSTF, LOOK and
      C-LOOK, whose orders it shares. Its SCAN and C-SCAN skip the visit to
      track 199, so their totals are never larger. */
  lemma SameSeekTimeEverywhere(d: Discipline, s: seq<int>, h: int)
    ensures ScriptJs.Evaluate(d, s, h).seekTime == DiskSchedulingCpp.Report(h, ServiceOrder(d, s, h)).seekTime
    ensures d != Scan && d != CScan ==>
      DiskSchedulerPy.RightwardOrder(d, s, h) == ServiceOrder(d, s, h) &&
      DiskSchedulerPy.CalculateSeekTime([h] + DiskSchedulerPy.RightwardOrder(d, s, h)) == ScriptJs.Evaluate(d, s, h).seekTime
    ensures DiskSchedulerPy.CalculateSeekTime([h] + DiskSchedulerPy.RightwardOrder(d, s, h)) <= ScriptJs.Evaluate(d, s, h).seekTime
  {
    DiskSchedulerPy.CalculateSeekTimeFromHead(h, DiskSchedulerPy.RightwardOrder(d, s, h));
    if d == Scan {
      SweepCosts.ScanNoCheaperThanLook(s, h, LastTrack);
    } else if d == CScan {
      var up := Pass(s, h, AtOrAbove, true);
      var wrap := Pass(s, h, Below, true);
      SweepCosts.CScanRegroup(up, LastTrack, wrap);
      ConcatAssoc(up, [0], wrap);
      SeekCostDetour(h, up, LastTrack, [0] + wrap);
    }
  }

  /** With the head and every request on the disk (tracks 0 to 199), the
      visit to track 199 that script.js and Disk_Scheduling.cpp make after
      the up sweep and Python skips costs C-SCAN exactly the way from the
      last track of that sweep (the head, if it is empty) to 199 and back. */
  lemma CScanEndVisitCost(s: seq<int>, h: int)
    requires AllAtLeast(s, 0) && AllAtMost(s, LastTrack) && 0 <= h <= LastTrack
    ensures ScriptJs.Evaluate(CScan, s, h).seekTime ==
              DiskSchedulerPy.CalculateSeekTime([h] + DiskSchedulerPy.RightwardOrder(CScan, s, h)) +
              2 * (LastTrack - Last(h, Pass(s, h, AtOrAbove, true)))
  {
    var up := Pass(s, h, AtOrAbove, true);
    SweepCosts.UpPassWithin(s, h, 0, LastTrack);
    SweepCosts.EndDetourToZero(h, up, LastTrack, Pass(s, h, Below, true));
    assert SeekCost(h, CScanOrder(s, h, LastTrack)) ==
             SeekCost(h, DiskSchedulerPy.CScanOrderPy(s, h)) + 2 * (LastTrack - Last(h, up));
    DiskSchedulerPy.CalculateSeekTimeFromHead(h, DiskSchedulerPy.CScanOrderPy(s, h));
    ScriptJs.EvaluateSeekTime(CScan, s, h);
    assert DiskSchedulerPy.RightwardOrder(CScan, s, h) == DiskSchedulerPy.CScanOrderPy(s, h);
  }

  /** The same visit costs SCAN, whose Python rightward form is LOOK, twice
      that gap when requests below the head remain to be served after it,
      and the gap once when none do. */
  lemma ScanEndVisitCost(s: seq<int>, h: int)
    requires AllAtLeast(s, 0) && AllAtMost(s, LastTrack) && 0 <= h <= LastTrack
    ensures ScriptJs.Evaluate(Scan, s, h).seekTime ==
              DiskSchedulerPy.CalculateSeekTime([h] + DiskSchedulerPy.RightwardOrder(Scan, s, h)) +
              (if Pass(s, h, Below, false) == [] then 1 else 2) * (LastTrack - Last(h, Pass(s, h, AtOrAbove, true)))
  {
    var up := Pass(s, h, AtOrAbove, true);
    var down := Pass(s, h, Below, false);
    SweepCosts.UpPassWithin(s, h, 0, LastTrack);
    UpSweepEndsHighest(s, h);
    if down != [] {
      PassOnSide(s, h, Below, false);
      assert OnSide(down[0], h, Below);
    }
    SweepCosts.EndDetourBeforeDown(h, up, LastTrack, down);
    assert SeekCost(h, ScanOrder(s, h, LastTrack)) ==
             SeekCost(h, LookOrder(s, h)) + (if down == [] then 1 else 2) * (LastTrack - Last(h, up));
    DiskSchedulerPy.CalculateSeekTimeFromHead(h, LookOrder(s, h));
    ScriptJs.EvaluateSeekTime(Scan, s, h);
    assert DiskSchedulerPy.RightwardOrder(Scan, s, h) == LookOrder(s, h);
  }

  /** Python's C-SCAN is the C-SCAN of script.js and Disk_Scheduling.cpp
      without the visit to track 199 after the up sweep; Python's rightward
      SCAN is their SCAN without it, which is LOOK. */
  lemma EndVisitDropped(s: seq<int>, h: int)
    ensures var k := |Pass(s, h, AtOrAbove, true)|;
            k < |CScanOrder(s, h, LastTrack)| && CScanOrder(s, h, LastTrack)[k] == LastTrack &&
            DiskSchedulerPy.CScanOrderPy(s, h) == RemoveAt(CScanOrder(s, h, LastTrack), k)
    ensures var k := |Pass(s, h, AtOrAbove, true)|;
            k < |ScanOrder(s, h, LastTrack)| && ScanOrder(s, h, LastTrack)[k] == LastTrack &&
            LookOrder(s, h) == RemoveAt(ScanOrder(s, h, LastTrack), k)
  {
    var up := Pass(s, h, AtOrAbove, true);
    var wrap := Pass(s, h, Below, true);
    var down := Pass(s, h, Below, false);
    var k := |up|;
    SweepCosts.CScanRegroup(up, LastTrack, wrap);
    SplitAround(up, [LastTrack], [0] + wrap);
    ConcatAssoc(up, [0], wrap);
    SplitAround(up, [LastTrack], down);
  }

  /** One SSTF step: the pick `k`, then the rest from there. */
  lemma SstfUnfold(s: seq<int>, pos: int, k: nat, rest: seq<int>)
    requires k < |s| && FirstNearest(s, pos) == k && RemoveAt(s, k) == rest
    ensures SstfOrder(s, pos) == [s[k]] + SstfOrder(rest, s[k])
  {
  }

  lemma SstfLast(x: int, pos: int)
    ensures SstfOrder([x], pos) == [x]
  {
    assert RemoveAt([x], 0) == [];
    ConcatEmpty([x]);
  }

  lemma SstfSecond(x: int, y: int, pos: int)
    requires Abs(pos - y) < Abs(pos - x)
    ensures SstfOrder([x, y], pos) == [y, x]
  {
    FirstNearestUnique([x, y], pos, 1);
    assert RemoveAt([x, y], 1) == [x];
    SstfUnfold([x, y], pos, 1, [x]);
    SstfLast(x, y);
  }

  lemma SstfFirst(x: int, y: int, pos: int)
    requires Abs(pos - x) <= Abs(pos - y)
    ensures SstfOrder([x, y], pos) == [x, y]
  {
    FirstNearestUnique([x, y], pos, 0);
    assert RemoveAt([x, y], 0) == [y];
    SstfUnfold([x, y], pos, 0, [y]);
    SstfLast(y, x);
  }

  /** Two requests the same distance from the head on either side: SSTF
      takes the one entered first. */
  lemma SstfTie(x: int, y: int, h: int)
    requires h - y == x - h
    ensures SstfOrder([x, y], h) == [x, y]
  {
    SstfFirst(x, y, h);
  }

  lemma ThreeNearest(a: int, b: int, c: int, h: int)
    requires a < b < h <= c && h - b < c - h
    ensures FirstNearest([c, a, b], h) == 2
  {
    var s := [c, a, b];
    assert Abs(h - s[0]) == c - h && Abs(h - s[1]) == h - a && Abs(h - s[2]) == h - b;
    FirstNearestUnique(s, h, 2);
  }

  lemma RemoveLast(x: int, y: int, z: int)
    ensures RemoveAt([x, y, z], 2) == [x, y]
  {
    assert [x, y, z][..2] == [x, y];
    EmptyConcat([]);
    ConcatEmpty([x, y]);
  }

  /** SSTF on three requests entered as `c, a, b`, with `b` nearest the head
      and `a` nearer `b` than `c` is: `b`, `a`, then `c`. */
  lemma ThreeSstf(a: int, b: int, c: int, h: int)
    requires a < b < h <= c && h - b < c - h && b - a < c - b
    ensures SstfOrder([c, a, b], h) == [b, a, c] && SeekCost(h, [b, a, c]) == h - 2 * a + c
  {
    ThreeNearest(a, b, c, h);
    RemoveLast(c, a, b);
    SstfUnfold([c, a, b], h, 2, [c, a]);
    SstfSecond(c, a, b);
    OneTwo(b, a, c);
    SeekCostThree(h, b, a, c);
  }

  /** `filter` on three requests keeps those on the side, in order. */
  lemma SelectThree(a: int, b: int, c: int, h: int, side: Side)
    ensures Select([a, b, c], h, side) ==
      (if OnSide(a, h, side) then [a] else []) + (if OnSide(b, h, side) then [b] else []) +
      (if OnSide(c, h, side) then [c] else [])
  {
    SelectCons(c, [], h, side);
    assert [b, c] == [b] + [c];
    SelectCons(b, [c], h, side);
    assert [a, b, c] == [a] + [b, c];
    SelectCons(a, [b, c], h, side);
  }

  lemma SelectCons(x: int, t: seq<int>, h: int, side: Side)
    ensures Select([x] + t, h, side) == (if OnSide(x, h, side) then [x] else []) + Select(t, h, side)
  {
    assert ([x] + t)[1..] == t;
  }

  /** The head movement of short paths, one move at a time. */
  lemma SeekCostThree(h: int, x: int, y: int, z: int)
    ensures SeekCost(h, [x, y, z]) == Abs(h - x) + Abs(x - y) + Abs(y - z)
  {
    SeekCostCons(y, z, []);
    assert [z] + [] == [z];
    SeekCostCons(x, y, [z]);
    assert [y] + [z] == [y, z];
    SeekCostCons(h, x, [y, z]);
    assert [x] + [y, z] == [x, y, z];
  }

  lemma SeekCostFour(h: int, w: int, x: int, y: int, z: int)
    ensures SeekCost(h, [w, x, y, z]) == Abs(h - w) + Abs(w - x) + Abs(x - y) + Abs(y - z)
  {
    SeekCostThree(w, x, y, z);
    SeekCostCons(h, w, [x, y, z]);
    assert [w] + [x, y, z] == [w, x, y, z];
  }

  lemma SeekCostFive(h: int, v: int, w: int, x: int, y: int, z: int)
    ensures SeekCost(h, [v, w, x, y, z]) == Abs(h - v) + Abs(v - w) + Abs(w - x) + Abs(x - y) + Abs(y - z)
  {
    SeekCostFour(v, w, x, y, z);
    SeekCostCons(h, v, [w, x, y, z]);
    assert [v] + [w, x, y, z] == [v, w, x, y, z];
  }

  /** Three requests entered as `c, a, b`, two of them below the head `h`
      and one at or above it, sort to `a, b, c`. */
  lemma ThreeSorted(a: int, b: int, c: int, h: int)
    requires a < b < h <= c
    ensures SortAsc([c, a, b]) == [a, b, c]
  {
    assert Ascending([a, b, c]);
    assert multiset([c, a, b]) == multiset([a, b, c]);
    AscendingUnique(SortAsc([c, a, b]), [a, b, c]);
  }

  lemma SelectHigh(a: int, b: int, c: int, h: int, side: Side)
    requires !OnSide(a, h, side) && !OnSide(b, h, side) && OnSide(c, h, side)
    ensures Select([a, b, c], h, side) == [c]
  {
    SelectThree(a, b, c, h, side);
    EmptyConcat([]);
    EmptyConcat([c]);
  }

  lemma SelectLow(a: int, b: int, c: int, h: int, side: Side)
    requires OnSide(a, h, side) && OnSide(b, h, side) && !OnSide(c, h, side)
    ensures Select([a, b, c], h, side) == [a, b]
  {
    SelectThree(a, b, c, h, side);
    ConcatEmpty([a] + [b]);
    assert [a] + [b] == [a, b];
  }

  lemma ThreeAbove(a: int, b: int, c: int, h: int, side: Side)
    requires a < b < h <= c && !OnSide(a, h, side) && !OnSide(b, h, side) && OnSide(c, h, side)
    ensures Pass([c, a, b], h, side, true) == [c]
  {
    ThreeSorted(a, b, c, h);
    SelectHigh(a, b, c, h, side);
  }

  lemma ThreeWrap(a: int, b: int, c: int, h: int, side: Side)
    requires a < b < h <= c && OnSide(a, h, side) && OnSide(b, h, side) && !OnSide(c, h, side)
    ensures Pass([c, a, b], h, side, true) == [a, b]
  {
    ThreeSorted(a, b, c, h);
    SelectLow(a, b, c, h, side);
  }

  lemma ThreeBelow(a: int, b: int, c: int, h: int, side: Side)
    requires a < b < h <= c && OnSide(a, h, side) && OnSide(b, h, side) && !OnSide(c, h, side)
    ensures Pass([c, a, b], h, side, false) == [b, a]
  {
    ThreeWrap(a, b, c, h, side);
    ReverseTwo(a, b);
  }

  lemma ReverseTwo(x: int, y: int)
    ensures Reverse([x, y]) == [y, x]
  {
  }

  /** Each sweep is built from the passes it makes. */
  lemma LookOfPasses(s: seq<int>, h: int, up: seq<int>, down: seq<int>)
    requires Pass(s, h, AtOrAbove, true) == up && Pass(s, h, Below, false) == down
    ensures LookOrder(s, h) == up + down && ScanOrder(s, h, LastTrack) == up + [LastTrack] + down
  {
  }

  lemma CLookOfPasses(s: seq<int>, h: int, up: seq<int>, wrap: seq<int>)
    requires Pass(s, h, AtOrAbove, true) == up && Pass(s, h, Below, true) == wrap
    ensures CLookOrder(s, h) == up + wrap
    ensures CScanOrder(s, h, LastTrack) == up + [LastTrack, 0] + wrap
    ensures DiskSchedulerPy.CScanOrderPy(s, h) == up + [0] + wrap
  {
  }

  lemma OneTwo(x: int, y: int, z: int)
    ensures [x] + [y, z] == [x, y, z]
  {
  }

  lemma OneOneTwo(w: int, x: int, y: int, z: int)
    ensures [w] + [x] + [y, z] == [w, x, y, z]
  {
  }

  lemma OneTwoTwo(v: int, w: int, x: int, y: int, z: int)
    ensures [v] + [w, x] + [y, z] == [v, w, x, y, z]
  {
  }

  lemma TwoOneOne(w: int, x: int, y: int, z: int)
    ensures [w, x] + [y] + [z] == [w, x, y, z]
  {
  }

  /** LOOK on such requests goes up to `c` and back down over `b` to `a`. */
  lemma ThreeLook(a: int, b: int, c: int, h: int)
    requires a < b < h <= c
    ensures LookOrder([c, a, b], h) == [c, b, a] && SeekCost(h, [c, b, a]) == 2 * c - h - a
  {
    ThreeAbove(a, b, c, h, AtOrAbove);
    ThreeBelow(a, b, c, h, Below);
    LookOfPasses([c, a, b], h, [c], [b, a]);
    OneTwo(c, b, a);
    SeekCostThree(h, c, b, a);
  }

  /** C-LOOK on such requests jumps from `c` back to `a`. */
  lemma ThreeCLook(a: int, b: int, c: int, h: int)
    requires a < b < h <= c
    ensures CLookOrder([c, a, b], h) == [c, a, b] && SeekCost(h, [c, a, b]) == 2 * c - h - 2 * a + b
  {
    ThreeAbove(a, b, c, h, AtOrAbove);
    ThreeWrap(a, b, c, h, Below);
    CLookOfPasses([c, a, b], h, [c], [a, b]);
    OneTwo(c, a, b);
    SeekCostThree(h, c, a, b);
  }

  /** SCAN on such requests climbs on to track 199 before coming down. */
  lemma ThreeScan(a: int, b: int, c: int, h: int)
    requires a < b < h <= c <= LastTrack
    ensures ScanOrder([c, a, b], h, LastTrack) == [c, 199, b, a] && SeekCost(h, [c, 199, b, a]) == 398 - h - a
  {
    ThreeAbove(a, b, c, h, AtOrAbove);
    ThreeBelow(a, b, c, h, Below);
    LookOfPasses([c, a, b], h, [c], [b, a]);
    OneOneTwo(c, 199, b, a);
    SeekCostFour(h, c, 199, b, a);
  }

  /** C-SCAN on such requests climbs to 199, jumps to 0 and climbs to `b`. */
  lemma ThreeCScan(a: int, b: int, c: int, h: int)
    requires 0 <= a < b < h <= c <= LastTrack
    ensures CScanOrder([c, a, b], h, LastTrack) == [c, 199, 0, a, b] && SeekCost(h, [c, 199, 0, a, b]) == 398 - h + b
  {
    ThreeAbove(a, b, c, h, AtOrAbove);
    ThreeWrap(a, b, c, h, Below);
    CLookOfPasses([c, a, b], h, [c], [a, b]);
    OneTwoTwo(c, 199, 0, a, b);
    SeekCostFive(h, c, 199, 0, a, b);
  }

  /** Python's leftward SCAN is built from its down pass and its up pass. */
  lemma LeftScanOfPasses(s: seq<int>, h: int, down: seq<int>, up: seq<int>)
    requires Pass(s, h, AtOrBelow, false) == down && Pass(s, h, Above, true) == up
    requires Last(h, down) != 0
    ensures DiskSchedulerPy.LeftScanOrder(s, h) == down + [0] + up
  {
  }

  /** Python on such requests: SCAN to the left goes down over `b` and `a`,
      on to track 0, then up to `c`, counting its total from the head at the
      front of the sequence. */
  lemma ThreePythonScan(a: int, b: int, c: int, h: int)
    requires 0 < a < b < h < c
    ensures DiskSchedulerPy.LeftScanOrder([c, a, b], h) == [b, a, 0, c]
    ensures DiskSchedulerPy.CalculateSeekTime([h] + [b, a, 0, c]) == h + c
  {
    ThreeAbove(a, b, c, h, Above);
    ThreeBelow(a, b, c, h, AtOrBelow);
    LeftScanOfPasses([c, a, b], h, [b, a], [c]);
    TwoOneOne(b, a, 0, c);
    DiskSchedulerPy.CalculateSeekTimeFromHead(h, [b, a, 0, c]);
    SeekCostFour(h, b, a, 0, c);
  }

  /** Python's C-SCAN on such requests goes up to `c`, jumps to 0 and climbs
      over `a` to `b`. */
  lemma ThreePythonCScan(a: int, b: int, c: int, h: int)
    requires 0 <= a < b < h <= c
    ensures DiskSchedulerPy.CScanOrderPy([c, a, b], h) == [c, 0, a, b]
    ensures DiskSchedulerPy.CalculateSeekTime([h] + [c, 0, a, b]) == 2 * c - h + b
  {
    ThreeAbove(a, b, c, h, AtOrAbove);
    ThreeWrap(a, b, c, h, Below);
    CLookOfPasses([c, a, b], h, [c], [a, b]);
    OneOneTwo(c, 0, a, b);
    DiskSchedulerPy.CalculateSeekTimeFromHead(h, [c, 0, a, b]);
    SeekCostFour(h, c, 0, a, b);
  }

  /** When the lowest request is far enough from the head for LOOK's return
      to it to cost more than SSTF's early visit, SSTF is the cheapest
      discipline, so FindOptimalAlgorithm answers "sstf"
      (ScriptJs.OptimalIsBestIndex). */
  lemma ThreeOptimal(a: int, b: int, c: int, h: int)
    requires a < b < h <= c && b - a < c - b && 2 * h <= a + c
    ensures Ranking[ScriptJs.BestIndex([c, a, b], h)] == Sstf
  {
    ThreeSstf(a, b, c, h);
    ThreeLook(a, b, c, h);
    ThreeCLook(a, b, c, h);
    SeekCostThree(h, c, a, b);
    ScriptJs.SstfChosen([c, a, b], h);
  }

  /** FCFS on the classic workload moves the head 640 tracks. */
  lemma TextbookFcfs()
    ensures SeekCost(53, [98, 183, 37, 122, 14, 124, 65, 67]) == 640
  {
  }

  /** With no requests script.js still reports a SCAN to track 199, and
      an average over the one entry; FCFS averages over nothing and reports
      NaN. Python's C-SCAN on no requests still jumps to track 0. */
  lemma EmptyWorkload()
    ensures ScriptJs.Evaluate(Scan, [], 53) == ScriptJs.SeekResult(146, ScriptJs.Mean(146.0), [199])
    ensures ScriptJs.Evaluate(Fcfs, [], 53) == ScriptJs.SeekResult(0, ScriptJs.NaN, [])
    ensures DiskSchedulerPy.CScanOrderPy([], 53) == [0]
  {
    assert SortAsc([]) == [];
  }

  /** The dispatcher ignores case, including the Kelvin sign standing for
      `k`, but not hyphens. */
  lemma DispatcherNames()
    ensures ScriptJs.ParseAlgorithm("SCAN") == ScriptJs.Some(Scan)
    ensures ScriptJs.ParseAlgorithm("LOO\U{212A}") == ScriptJs.Some(Look)
    ensures ScriptJs.ParseAlgorithm("C-SCAN") == ScriptJs.None
  {
    assert ScriptJs.ToLower("SCAN") == "scan";
    assert ScriptJs.ToLower("LOO\U{212A}") == "look";
    assert ScriptJs.ToLower("C-SCAN") == "c-scan";
  }
}
