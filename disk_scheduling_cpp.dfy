/** The console program of Disk_Scheduling.cpp. Each discipline builds its
    service order (the head position is not part of it) and hands it to
    `calculateSeekTime`, which prints the order and its total head movement;
    here the two are returned instead of printed. SCAN and C-SCAN visit the
    hard-coded end track 199, and C-SCAN then jumps to track 0. */
module DiskSchedulingCpp {
  import opened Tracks
  import opened Seek
  import opened Nearest
  import opened Disciplines

  /** What `calculateSeekTime` prints: the service order and its total head
      movement. */
  datatype SeekReport = SeekReport(sequence: seq<int>, seekTime: nat)

  /** The report for `sequence` walked from `head`. */
  function Report(head: int, sequence: seq<int>): SeekReport {
    SeekReport(sequence, SeekCost(head, sequence))
  }

  /** Walks `sequence` from `head`, adding up the distance of every move. */
  method CalculateSeekTime(sequence: seq<int>, head: int) returns (report: SeekReport)
    ensures report == Report(head, sequence)
  {
    var seekTime: nat := 0;
    var currentPosition := head;
    for i := 0 to |sequence|
      invariant seekTime + SeekCost(currentPosition, sequence[i..]) == SeekCost(head, sequence)
    {
      var track := sequence[i];
      assert sequence[i..][1..] == sequence[i + 1..];
      seekTime := seekTime + Abs(currentPosition - track);
      currentPosition := track;
    }
    report := SeekReport(sequence, seekTime);
  }

  /** Services the requests in the order they were entered. */
  method Fcfs(requests: seq<int>, head: int) returns (report: SeekReport)
    ensures report == Report(head, ServiceOrder(Discipline.Fcfs, requests, head))
    ensures report.sequence == requests
  {
    report := CalculateSeekTime(requests, head);
  }

  /** `min_element` with the comparator `abs(a - currentPosition) <
      abs(b - currentPosition)` returns the first position whose element no
      other element beats: the SSTF pick FirstNearest, and no other. */
  lemma MinElementIsFirstNearest(remaining: seq<int>, currentPosition: int, i: nat)
    requires i < |remaining|
    ensures i == FirstNearest(remaining, currentPosition) <==>
      (forall j :: 0 <= j < |remaining| ==>
         !(Abs(remaining[j] - currentPosition) < Abs(remaining[i] - currentPosition))) &&
      (forall j :: 0 <= j < i ==>
         Abs(remaining[i] - currentPosition) < Abs(remaining[j] - currentPosition))
  {
    var k := FirstNearest(remaining, currentPosition);
    forall j | 0 <= j < |remaining|
      ensures Abs(remaining[j] - currentPosition) == Abs(currentPosition - remaining[j])
    {
    }
    if (forall j :: 0 <= j < |remaining| ==>
          !(Abs(remaining[j] - currentPosition) < Abs(remaining[i] - currentPosition))) &&
       (forall j :: 0 <= j < i ==>
          Abs(remaining[i] - currentPosition) < Abs(remaining[j] - currentPosition)) {
      FirstNearestUnique(remaining, currentPosition, i);
    }
  }

  /** Repeatedly services and erases the first pending request of least
      distance from the current position. */
  method Sstf(requests: seq<int>, head: int) returns (report: SeekReport)
    ensures report == Report(head, ServiceOrder(Discipline.Sstf, requests, head))
    ensures multiset(report.sequence) == multiset(requests)
    ensures Greedy(head, report.sequence)
  {
    var sequence: seq<int> := [];
    var remaining := requests;
    var currentPosition := head;
    while remaining != []
      invariant sequence + SstfOrder(remaining, currentPosition) == SstfOrder(requests, head)
      decreases |remaining|
    {
      var closest := FirstNearest(remaining, currentPosition);
      var track := remaining[closest];
      var rest := RemoveAt(remaining, closest);
      assert SstfOrder(remaining, currentPosition) == [track] + SstfOrder(rest, track);
      ConcatAssoc(sequence, [track], SstfOrder(rest, track));
      sequence := sequence + [track];
      currentPosition := track;
      remaining := rest;
    }
    ConcatEmpty(sequence);
    SstfPermutation(requests, head);
    SstfGreedy(requests, head);
    report := CalculateSeekTime(sequence, head);
  }

  /** The `for` loop over the sorted requests that pushes each track to
      `rightTracks` when it is at or above the head and to `leftTracks`
      otherwise. */
  method SplitAtHead(sortedRequests: seq<int>, head: int) returns (rightTracks: seq<int>, leftTracks: seq<int>)
    ensures rightTracks == Select(sortedRequests, head, AtOrAbove)
    ensures leftTracks == Select(sortedRequests, head, Below)
  {
    rightTracks, leftTracks := [], [];
    for i := 0 to |sortedRequests|
      invariant rightTracks == Select(sortedRequests[..i], head, AtOrAbove)
      invariant leftTracks == Select(sortedRequests[..i], head, Below)
    {
      var track := sortedRequests[i];
      assert sortedRequests[..i + 1] == sortedRequests[..i] + [track];
      SelectAppend(sortedRequests[..i], track, head, AtOrAbove);
      SelectAppend(sortedRequests[..i], track, head, Below);
      if track >= head {
        ConcatEmpty(leftTracks);
        rightTracks := rightTracks + [track];
      } else {
        ConcatEmpty(rightTracks);
        leftTracks := leftTracks + [track];
      }
    }
    assert sortedRequests[..|sortedRequests|] == sortedRequests;
  }

  /** The split puts every request on exactly one side; the sorted requests
      are the left tracks followed by the right tracks. */
  lemma SplitIsPartition(requests: seq<int>, head: int)
    ensures var sortedRequests := SortAsc(requests);
            Select(sortedRequests, head, Below) + Select(sortedRequests, head, AtOrAbove) == sortedRequests
    ensures var sortedRequests := SortAsc(requests);
            multiset(Select(sortedRequests, head, AtOrAbove)) + multiset(Select(sortedRequests, head, Below)) ==
              multiset(requests)
  {
    var sortedRequests := SortAsc(requests);
    AscendingSplits(sortedRequests, head, Below);
    SelectPartition(sortedRequests, head, AtOrAbove);
  }

  /** Right tracks, track 199, then the left tracks reversed. */
  method Scan(requests: seq<int>, head: int) returns (report: SeekReport)
    ensures report == Report(head, ServiceOrder(Discipline.Scan, requests, head))
  {
    var sortedRequests := SortAsc(requests);
    var rightTracks, leftTracks := SplitAtHead(sortedRequests, head);
    leftTracks := Reverse(leftTracks);
    var sequence := rightTracks;
    sequence := sequence + [199];
    sequence := sequence + leftTracks;
    assert sequence == ScanOrder(requests, head, LastTrack);
    report := CalculateSeekTime(sequence, head);
  }

  /** Right tracks, track 199, track 0, then the left tracks ascending. */
  method CScan(requests: seq<int>, head: int) returns (report: SeekReport)
    ensures report == Report(head, ServiceOrder(Discipline.CScan, requests, head))
  {
    var sortedRequests := SortAsc(requests);
    var rightTracks, leftTracks := SplitAtHead(sortedRequests, head);
    var sequence := rightTracks;
    sequence := sequence + [199];
    sequence := sequence + [0];
    sequence := sequence + leftTracks;
    WithEndAndZero(rightTracks, 199, leftTracks);
    assert sequence == CScanOrder(requests, head, LastTrack);
    report := CalculateSeekTime(sequence, head);
  }

  /** Pushing the end track and then 0 is inserting the pair. */
  lemma WithEndAndZero(right: seq<int>, end: int, left: seq<int>)
    ensures right + [end] + [0] + left == right + [end, 0] + left
  {
    assert [end] + [0] == [end, 0];
    ConcatAssoc(right, [end], [0]);
  }

  /** Right tracks, then the left tracks reversed. */
  method Look(requests: seq<int>, head: int) returns (report: SeekReport)
    ensures report == Report(head, ServiceOrder(Discipline.Look, requests, head))
  {
    var sortedRequests := SortAsc(requests);
    var rightTracks, leftTracks := SplitAtHead(sortedRequests, head);
    leftTracks := Reverse(leftTracks);
    var sequence := rightTracks;
    sequence := sequence + leftTracks;
    assert sequence == LookOrder(requests, head);
    report := CalculateSeekTime(sequence, head);
  }

  /** Right tracks, then the left tracks ascending. */
  method CLook(requests: seq<int>, head: int) returns (report: SeekReport)
    ensures report == Report(head, ServiceOrder(Discipline.CLook, requests, head))
  {
    var sortedRequests := SortAsc(requests);
    var rightTracks, leftTracks := SplitAtHead(sortedRequests, head);
    var sequence := rightTracks;
    sequence := sequence + leftTracks;
    assert sequence == CLookOrder(requests, head);
    report := CalculateSeekTime(sequence, head);
  }
}
