/** The browser scheduler of script.js: a `DiskScheduler` object holding the
    pending requests and the head position, one method per discipline, a
    dispatcher by algorithm name and the search for the cheapest discipline.
    Every method returns the seek time, the average seek time and the
    service order; the head position is not part of the order. */
module ScriptJs {
  import opened Tracks
  import opened Seek
  import opened Nearest
  import opened Disciplines
  import SweepCosts

  datatype Option<T> = None | Some(value: T)

  datatype SchedulerError = InvalidAlgorithm

  datatype Result<T> = Success(value: T) | Failure(error: SchedulerError)

  /** The average seek time: the total divided by the number of serviced
      tracks, as an exact real number. Dividing by an empty sequence's length
      gives NaN. */
  datatype Average = NaN | Mean(value: real)

  function AverageOf(total: nat, count: nat): (a: Average)
    ensures a.NaN? <==> count == 0
    ensures a.Mean? ==> a.value * count as real == total as real && a.value >= 0.0
  {
    if count == 0 then NaN else Mean(total as real / count as real)
  }

  datatype SeekResult = SeekResult(seekTime: nat, avgSeekTime: Average, sequence: seq<int>)

  /** What `calculateSeekTime` reports for `sequence` from `head`. */
  function Measure(head: int, sequence: seq<int>): SeekResult {
    SeekResult(SeekCost(head, sequence), AverageOf(SeekCost(head, sequence), |sequence|), sequence)
  }

  /** What the method for discipline `d` reports. */
  function Evaluate(d: Discipline, s: seq<int>, h: int): SeekResult {
    Measure(h, ServiceOrder(d, s, h))
  }

  /** The reported seek time is the head movement along the order. */
  lemma EvaluateSeekTime(d: Discipline, s: seq<int>, h: int)
    ensures Evaluate(d, s, h).seekTime == SeekCost(h, ServiceOrder(d, s, h))
  {
  }

  /** The name of each discipline in the dispatcher. */
  function Name(d: Discipline): string {
    match d
    case Fcfs => "fcfs"
    case Sstf => "sstf"
    case Scan => "scan"
    case CScan => "cscan"
    case Look => "look"
    case CLook => "clook"
  }

  /** The names the optimiser tries, in order. */
  const Algorithms: seq<string> := ["fcfs", "sstf", "scan", "cscan", "look", "clook"]

  /** The part of `toLowerCase` the dispatcher can observe, on one character.
      Besides A-Z, the only character whose lower case is a single ASCII
      letter is the Kelvin sign, which becomes 'k'. Every other character is
      kept here; its real lower case (which may be longer) contains a
      character that is not a lower-case ASCII letter, so it cannot turn a
      string into one of the dispatcher's names either way. */
  function LowerChar(c: char): char {
    if 'A' <= c <= 'Z' then (c as int + 32) as char
    else if c == '\U{212A}' then 'k'
    else c
  }

  /** `toLowerCase` restricted to the characters above, one for one. */
  function ToLower(s: string): (r: string)
    ensures |r| == |s|
    ensures forall i :: 0 <= i < |s| ==> r[i] == LowerChar(s[i])
  {
    seq(|s|, i requires 0 <= i < |s| => LowerChar(s[i]))
  }

  /** The `switch` of `runAlgorithm`: the discipline whose name is the
      lower-cased argument, if any. */
  function ParseAlgorithm(algorithm: string): (d: Option<Discipline>)
    ensures d.Some? ==> ToLower(algorithm) == Name(d.value)
    ensures d.None? ==> forall e: Discipline :: ToLower(algorithm) != Name(e)
  {
    var name := ToLower(algorithm);
    if name == "fcfs" then Some(Fcfs)
    else if name == "sstf" then Some(Sstf)
    else if name == "scan" then Some(Scan)
    else if name == "cscan" then Some(CScan)
    else if name == "look" then Some(Look)
    else if name == "clook" then Some(CLook)
    else None
  }

  lemma LowerOfLower(s: string)
    requires forall i :: 0 <= i < |s| ==> 'a' <= s[i] <= 'z'
    ensures ToLower(s) == s
  {
  }

  /** Every discipline's name dispatches to it, and an argument dispatches to
      a discipline exactly when its lower case is that discipline's name. */
  lemma ParseName(algorithm: string, d: Discipline)
    ensures ParseAlgorithm(Name(d)) == Some(d)
    ensures ParseAlgorithm(algorithm) == Some(d) <==> ToLower(algorithm) == Name(d)
  {
    LowerOfLower(Name(d));
  }

  /** The optimiser's list is the list of names in ranking order. */
  lemma AlgorithmsAreNames()
    ensures |Algorithms| == |Ranking|
    ensures forall i :: 0 <= i < |Ranking| ==> Algorithms[i] == Name(Ranking[i])
    ensures forall i, j :: 0 <= i < j < |Algorithms| ==> Algorithms[i] != Algorithms[j]
  {
    assert Algorithms[0][0] == 'f' && Algorithms[1][0] == 's' && Algorithms[2][0] == 's';
    assert Algorithms[3][0] == 'c' && Algorithms[4][0] == 'l' && Algorithms[5][0] == 'c';
    assert Algorithms[1][1] == 's' && Algorithms[2][1] == 'c';
    assert |Algorithms[3]| == 5 && |Algorithms[5]| == 5 && Algorithms[3][1] == 's' && Algorithms[5][1] == 'l';
    assert |Algorithms[0]| == |Algorithms[1]| == |Algorithms[2]| == |Algorithms[4]| == 4;
  }

  /** The `reduce` SSTF uses to pick the next request: it keeps the
      accumulated request unless the next one is strictly nearer `pos`. */
  function FoldClosest(prev: int, rest: seq<int>, pos: int): (r: int)
    ensures r == prev || r in rest
    ensures Abs(r - pos) <= Abs(prev - pos)
    decreases |rest|
  {
    if rest == [] then prev
    else FoldClosest(if Abs(rest[0] - pos) < Abs(prev - pos) then rest[0] else prev, rest[1..], pos)
  }

  function ReduceClosest(s: seq<int>, pos: int): (r: int)
    requires |s| > 0
    ensures r in s
  {
    FoldClosest(s[0], s[1..], pos)
  }

  /** After the first `i` requests, the accumulator holds the first nearest
      of them; so the whole fold yields the first nearest of all. */
  lemma {:induction false} FoldClosestInvariant(s: seq<int>, pos: int, i: nat, prev: int)
    requires 0 < i <= |s|
    requires prev == s[FirstNearest(s[..i], pos)]
    ensures FoldClosest(prev, s[i..], pos) == s[FirstNearest(s, pos)]
    decreases |s| - i
  {
    if i == |s| {
      assert s[..i] == s;
    } else {
      assert s[i..][0] == s[i] && s[i..][1..] == s[i + 1..];
      assert Abs(s[i] - pos) == Abs(pos - s[i]) && Abs(prev - pos) == Abs(pos - prev);
      FirstNearestExtend(s, pos, i);
      FoldClosestInvariant(s, pos, i + 1, if Abs(s[i] - pos) < Abs(prev - pos) then s[i] else prev);
    }
  }

  /** SSTF's `reduce` returns the first nearest pending request, and
      `indexOf` then finds that very entry, so `splice` removes it. */
  lemma ReduceClosestIsFirstNearest(s: seq<int>, pos: int)
    requires |s| > 0
    ensures ReduceClosest(s, pos) == s[FirstNearest(s, pos)]
    ensures IndexOf(s, ReduceClosest(s, pos)) == FirstNearest(s, pos)
  {
    FirstNearestUnique(s[..1], pos, 0);
    FoldClosestInvariant(s, pos, 1, s[0]);
  }

  /** `minSeekTime`: Infinity until the first discipline is measured. */
  datatype Bound = Infinity | Finite(value: nat)

  predicate LessThan(x: nat, b: Bound) {
    b.Infinity? || x < b.value
  }

  /** The seek time of every discipline, in ranking order. */
  function SeekTimes(s: seq<int>, h: int): (t: seq<int>)
    ensures |t| == |Ranking|
    ensures forall i :: 0 <= i < |Ranking| ==> t[i] == Evaluate(Ranking[i], s, h).seekTime
  {
    seq(|Ranking|, i requires 0 <= i < |Ranking| => Evaluate(Ranking[i], s, h).seekTime)
  }

  /** The index in ranking order of the discipline the optimiser picks. */
  function BestIndex(s: seq<int>, h: int): (k: nat)
    ensures k < |Ranking|
    ensures forall j :: 0 <= j < |Ranking| ==> SeekTimes(s, h)[k] <= SeekTimes(s, h)[j]
    ensures forall j :: 0 <= j < k ==> SeekTimes(s, h)[k] < SeekTimes(s, h)[j]
  {
    FirstMinimum(SeekTimes(s, h))
  }

  /** SCAN only wins when its detour to the end track is free: otherwise
      LOOK is strictly cheaper. The same holds for C-SCAN against C-LOOK. */
  lemma OptimalSkipsCostlierSweeps(s: seq<int>, h: int)
    ensures Ranking[BestIndex(s, h)] == Scan ==>
      SeekCost(h, ScanOrder(s, h, LastTrack)) == SeekCost(h, LookOrder(s, h))
    ensures Ranking[BestIndex(s, h)] == CScan ==>
      SeekCost(h, CScanOrder(s, h, LastTrack)) == SeekCost(h, CLookOrder(s, h))
  {
    SweepCosts.ScanNoCheaperThanLook(s, h, LastTrack);
    SweepCosts.CScanNoCheaperThanCLook(s, h, LastTrack);
    SeekTimeScan(s, h);
    SeekTimeCScan(s, h);
    SeekTimeLook(s, h);
    SeekTimeCLook(s, h);
  }

  /** The seek times the optimiser compares, discipline by discipline: entry
      `i` is the head movement along the order of the `i`-th discipline. */
  lemma SeekTimeFcfs(s: seq<int>, h: int)
    ensures SeekTimes(s, h)[0] == SeekCost(h, s)
  {
  }

  lemma SeekTimeSstf(s: seq<int>, h: int)
    ensures SeekTimes(s, h)[1] == SeekCost(h, SstfOrder(s, h))
  {
  }

  lemma SeekTimeScan(s: seq<int>, h: int)
    ensures SeekTimes(s, h)[2] == SeekCost(h, ScanOrder(s, h, LastTrack))
  {
  }

  lemma SeekTimeCScan(s: seq<int>, h: int)
    ensures SeekTimes(s, h)[3] == SeekCost(h, CScanOrder(s, h, LastTrack))
  {
  }

  lemma SeekTimeLook(s: seq<int>, h: int)
    ensures SeekTimes(s, h)[4] == SeekCost(h, LookOrder(s, h))
  {
  }

  lemma SeekTimeCLook(s: seq<int>, h: int)
    ensures SeekTimes(s, h)[5] == SeekCost(h, CLookOrder(s, h))
  {
  }

  /** The optimiser settles on SSTF exactly when SSTF moves the head strictly
      less than FCFS and no more than LOOK and C-LOOK; SCAN and C-SCAN never
      undercut those two. */
  lemma SstfChosen(s: seq<int>, h: int)
    ensures Ranking[BestIndex(s, h)] == Sstf <==>
      SeekCost(h, SstfOrder(s, h)) < SeekCost(h, s) &&
      SeekCost(h, SstfOrder(s, h)) <= SeekCost(h, LookOrder(s, h)) &&
      SeekCost(h, SstfOrder(s, h)) <= SeekCost(h, CLookOrder(s, h))
  {
    SweepCosts.ScanNoCheaperThanLook(s, h, LastTrack);
    SweepCosts.CScanNoCheaperThanCLook(s, h, LastTrack);
    SeekTimeFcfs(s, h);
    SeekTimeSstf(s, h);
    SeekTimeScan(s, h);
    SeekTimeCScan(s, h);
    SeekTimeLook(s, h);
    SeekTimeCLook(s, h);
    SecondOfSixIsFirstMinimum(SeekTimes(s, h));
  }

  /** Among six costs whose third and fourth are no lower than their fifth
      and sixth, the second is the first minimum exactly when it is below the
      first and no higher than the fifth and sixth. */
  lemma SecondOfSixIsFirstMinimum(t: seq<int>)
    requires |t| == 6 && t[2] >= t[4] && t[3] >= t[5]
    ensures FirstMinimum(t) == 1 <==> t[1] < t[0] && t[1] <= t[4] && t[1] <= t[5]
  {
    if t[1] < t[0] && t[1] <= t[4] && t[1] <= t[5] {
      FirstMinimumUnique(t, 1);
    }
  }

  /** The state of the optimiser after trying the first `i` of `names`,
      whose results are `expected`: `all` maps each tried name to its
      result, and `best` is the first tried index of least seek time. */
  ghost predicate Scanned(names: seq<string>, expected: seq<SeekResult>, i: nat, all: map<string, SeekResult>,
                          bestAlgorithm: Option<string>, minSeekTime: Bound, best: nat)
  {
    && |names| == |expected| && i <= |names| && best < |names|
    && (i == 0 ==> bestAlgorithm == None && minSeekTime == Infinity)
    && (0 < i ==> best < i && bestAlgorithm == Some(names[best]) && minSeekTime == Finite(expected[best].seekTime))
    && (forall j :: 0 <= j < i ==> expected[best].seekTime <= expected[j].seekTime)
    && (forall j :: 0 <= j < best ==> expected[best].seekTime < expected[j].seekTime)
    && (forall j :: 0 <= j < i ==> names[j] in all && all[names[j]] == expected[j])
    && (forall a :: a in all ==> exists j :: 0 <= j < i && names[j] == a)
  }

  /** Trying the next name keeps the optimiser's state described. */
  lemma ScanStep(names: seq<string>, expected: seq<SeekResult>, i: nat, all: map<string, SeekResult>,
                 bestAlgorithm: Option<string>, minSeekTime: Bound, best: nat)
    requires Scanned(names, expected, i, all, bestAlgorithm, minSeekTime, best)
    requires i < |names|
    requires forall j, k :: 0 <= j < k < |names| ==> names[j] != names[k]
    ensures var better := LessThan(expected[i].seekTime, minSeekTime);
            Scanned(names, expected, i + 1, all[names[i] := expected[i]],
                    if better then Some(names[i]) else bestAlgorithm,
                    if better then Finite(expected[i].seekTime) else minSeekTime,
                    if better then i else best)
  {
    var all' := all[names[i] := expected[i]];
    forall j | 0 <= j < i ensures names[j] in all' && all'[names[j]] == expected[j] {
      assert names[j] != names[i];
    }
  }

  /** Once every name is tried, the recorded best has the least seek time of
      all, and every name before it costs strictly more. */
  lemma ScanFinished(names: seq<string>, expected: seq<SeekResult>, all: map<string, SeekResult>,
                     bestAlgorithm: Option<string>, minSeekTime: Bound, best: nat)
    requires Scanned(names, expected, |names|, all, bestAlgorithm, minSeekTime, best)
    requires |names| > 0
    requires forall j, k :: 0 <= j < k < |names| ==> names[j] != names[k]
    ensures bestAlgorithm == Some(names[best]) && names[best] in all && all[names[best]] == expected[best]
    ensures forall a :: a in all <==> a in names
    ensures forall j :: 0 <= j < |names| ==> all[names[j]] == expected[j]
    ensures forall a :: a in all ==> all[names[best]].seekTime <= all[a].seekTime
    ensures forall j, k :: 0 <= j < k < |names| && names[k] == names[best] ==>
      all[names[best]].seekTime < all[names[j]].seekTime
  {
    forall j, k | 0 <= j < k < |names| && names[k] == names[best]
      ensures all[names[best]].seekTime < all[names[j]].seekTime
    {
      assert k == best;
    }
  }

  /** What FindOptimalAlgorithm guarantees pins its choice down: the
      discipline at BestIndex, the first of least seek time in ranking
      order. */
  lemma OptimalIsBestIndex(s: seq<int>, h: int, algorithm: string, results: SeekResult,
                           allResults: map<string, SeekResult>)
    requires forall a :: a in allResults <==> a in Algorithms
    requires forall i :: 0 <= i < |Ranking| ==> allResults[Algorithms[i]] == Evaluate(Ranking[i], s, h)
    requires algorithm in allResults && results == allResults[algorithm]
    requires forall a :: a in allResults ==> results.seekTime <= allResults[a].seekTime
    requires forall i, k :: 0 <= i < k < |Algorithms| && Algorithms[k] == algorithm ==>
      results.seekTime < allResults[Algorithms[i]].seekTime
    ensures algorithm == Name(Ranking[BestIndex(s, h)])
    ensures results == Evaluate(Ranking[BestIndex(s, h)], s, h)
  {
    AlgorithmsAreNames();
    var k :| 0 <= k < |Algorithms| && Algorithms[k] == algorithm;
    var t := SeekTimes(s, h);
    forall j | 0 <= j < |t| ensures t[k] <= t[j] {
      assert Algorithms[j] in allResults;
    }
    FirstMinimumUnique(t, k);
  }

  class DiskScheduler {
    var requests: seq<int>
    var headPosition: int

    constructor()
      ensures requests == [] && headPosition == 0
    {
      requests := [];
      headPosition := 0;
    }

    /** Replaces the pending requests (a copy) and the head position. */
    method SetParameters(newRequests: seq<int>, newHead: int)
      modifies this
      ensures requests == newRequests && headPosition == newHead
    {
      requests := newRequests;
      headPosition := newHead;
    }

    /** Walks `sequence` from the head position, adding up the distance of
        every move. */
    method CalculateSeekTime(sequence: seq<int>) returns (r: SeekResult)
      ensures r == Measure(headPosition, sequence)
    {
      var seekTime: nat := 0;
      var currentPosition := headPosition;
      var i := 0;
      while i < |sequence|
        invariant 0 <= i <= |sequence|
        invariant seekTime + SeekCost(currentPosition, sequence[i..]) == SeekCost(headPosition, sequence)
      {
        var track := sequence[i];
        assert sequence[i..][1..] == sequence[i + 1..];
        seekTime := seekTime + Abs(currentPosition - track);
        currentPosition := track;
        i := i + 1;
      }
      r := SeekResult(seekTime, AverageOf(seekTime, |sequence|), sequence);
    }

    method Fcfs() returns (r: SeekResult)
      ensures r == Evaluate(Discipline.Fcfs, requests, headPosition)
      ensures r.sequence == requests
    {
      r := CalculateSeekTime(requests);
    }

    /** Repeatedly services the pending request nearest the current
        position, the earliest of equally near ones. */
    method Sstf() returns (r: SeekResult)
      ensures r == Evaluate(Discipline.Sstf, requests, headPosition)
      ensures multiset(r.sequence) == multiset(requests)
      ensures Greedy(headPosition, r.sequence)
    {
      var sequence: seq<int> := [];
      var remaining := requests;
      var currentPosition := headPosition;
      while |remaining| > 0
        invariant sequence + SstfOrder(remaining, currentPosition) == SstfOrder(requests, headPosition)
        decreases |remaining|
      {
        var closest := ReduceClosest(remaining, currentPosition);
        ReduceClosestIsFirstNearest(remaining, currentPosition);
        var k := IndexOf(remaining, closest);
        assert SstfOrder(remaining, currentPosition) == [closest] + SstfOrder(RemoveAt(remaining, k), closest);
        ConcatAssoc(sequence, [closest], SstfOrder(RemoveAt(remaining, k), closest));
        sequence := sequence + [closest];
        currentPosition := closest;
        remaining := RemoveAt(remaining, k);
      }
      ConcatEmpty(sequence);
      SstfPermutation(requests, headPosition);
      SstfGreedy(requests, headPosition);
      r := CalculateSeekTime(sequence);
    }

    /** Sweeps up over the requests at or above the head to track 199, then
        down over the rest. */
    method Scan() returns (r: SeekResult)
      ensures r == Evaluate(Discipline.Scan, requests, headPosition)
    {
      var remaining := SortAsc(requests);
      var maxTrack := 199;
      var currentPosition := headPosition;
      var rightTracks := Select(remaining, currentPosition, AtOrAbove);
      var sequence := rightTracks + [maxTrack];
      var leftTracks := Reverse(Select(remaining, currentPosition, Below));
      sequence := sequence + leftTracks;
      assert sequence == ServiceOrder(Discipline.Scan, requests, headPosition);
      r := CalculateSeekTime(sequence);
    }

    /** Sweeps up to track 199, jumps to track 0 and sweeps up over the
        requests below the head. */
    method CScan() returns (r: SeekResult)
      ensures r == Evaluate(Discipline.CScan, requests, headPosition)
    {
      var remaining := SortAsc(requests);
      var maxTrack := 199;
      var currentPosition := headPosition;
      var rightTracks := Select(remaining, currentPosition, AtOrAbove);
      var sequence := rightTracks + [maxTrack];
      var leftTracks := Select(remaining, currentPosition, Below);
      sequence := sequence + [0];
      sequence := sequence + leftTracks;
      SweepCosts.CScanRegroup(rightTracks, maxTrack, leftTracks);
      ConcatAssoc(rightTracks + [maxTrack], [0], leftTracks);
      assert sequence == ServiceOrder(Discipline.CScan, requests, headPosition);
      r := CalculateSeekTime(sequence);
    }

    /** Sweeps up over the requests at or above the head, then down over the
        rest, without visiting an end track. */
    method Look() returns (r: SeekResult)
      ensures r == Evaluate(Discipline.Look, requests, headPosition)
    {
      var remaining := SortAsc(requests);
      var currentPosition := headPosition;
      var rightTracks := Select(remaining, currentPosition, AtOrAbove);
      var sequence := rightTracks;
      var leftTracks := Reverse(Select(remaining, currentPosition, Below));
      sequence := sequence + leftTracks;
      assert sequence == ServiceOrder(Discipline.Look, requests, headPosition);
      r := CalculateSeekTime(sequence);
    }

    /** Sweeps up over the requests at or above the head, then up again over
        the requests below it. */
    method CLook() returns (r: SeekResult)
      ensures r == Evaluate(Discipline.CLook, requests, headPosition)
    {
      var remaining := SortAsc(requests);
      var currentPosition := headPosition;
      var rightTracks := Select(remaining, currentPosition, AtOrAbove);
      var sequence := rightTracks;
      var leftTracks := Select(remaining, currentPosition, Below);
      sequence := sequence + leftTracks;
      assert sequence == ServiceOrder(Discipline.CLook, requests, headPosition);
      r := CalculateSeekTime(sequence);
    }

    /** Dispatches on the lower-cased name; an unknown name is an error. */
    method RunAlgorithm(algorithm: string) returns (r: Result<SeekResult>)
      ensures ParseAlgorithm(algorithm).None? <==> r == Failure(InvalidAlgorithm)
      ensures ParseAlgorithm(algorithm).Some? ==>
        r == Success(Evaluate(ParseAlgorithm(algorithm).value, requests, headPosition))
    {
      var name := ToLower(algorithm);
      var x: SeekResult;
      if name == "fcfs" {
        x := Fcfs();
      } else if name == "sstf" {
        x := Sstf();
      } else if name == "scan" {
        x := Scan();
      } else if name == "cscan" {
        x := CScan();
      } else if name == "look" {
        x := Look();
      } else if name == "clook" {
        x := CLook();
      } else {
        return Failure(InvalidAlgorithm);
      }
      r := Success(x);
    }

    /** Runs every discipline in ranking order and keeps the first one with
        the least seek time. */
    method FindOptimalAlgorithm() returns (algorithm: string, results: SeekResult, allResults: map<string, SeekResult>)
      ensures forall a :: a in allResults <==> a in Algorithms
      ensures forall i :: 0 <= i < |Ranking| ==>
        allResults[Algorithms[i]] == Evaluate(Ranking[i], requests, headPosition)
      ensures algorithm in allResults && results == allResults[algorithm]
      ensures forall a :: a in allResults ==> results.seekTime <= allResults[a].seekTime
      ensures forall i, k :: 0 <= i < k < |Algorithms| && Algorithms[k] == algorithm ==>
        results.seekTime < allResults[Algorithms[i]].seekTime
    {
      var algorithms := Algorithms;
      var bestAlgorithm: Option<string> := None;
      var minSeekTime := Infinity;
      var all: map<string, SeekResult> := map[];
      ghost var pending, head := requests, headPosition;
      ghost var expected := seq(|Ranking|, j requires 0 <= j < |Ranking| => Evaluate(Ranking[j], pending, head));
      ghost var best: nat := 0;
      AlgorithmsAreNames();
      var i := 0;
      while i < |algorithms|
        invariant Scanned(algorithms, expected, i, all, bestAlgorithm, minSeekTime, best)
      {
        var alg := algorithms[i];
        ParseName(alg, Ranking[i]);
        var r := RunAlgorithm(alg);
        assert r == Success(expected[i]);
        var result := r.value;
        ScanStep(algorithms, expected, i, all, bestAlgorithm, minSeekTime, best);
        all := all[alg := result];
        if LessThan(result.seekTime, minSeekTime) {
          minSeekTime := Finite(result.seekTime);
          bestAlgorithm := Some(alg);
          best := i;
        }
        i := i + 1;
      }
      ScanFinished(Algorithms, expected, all, bestAlgorithm, minSeekTime, best);
      algorithm := bestAlgorithm.value;
      results := all[algorithm];
      allResults := all;
    }
  }
}
