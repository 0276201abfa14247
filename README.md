# Disk head scheduling, modelled in Dafny

The system computes the order a disk head services a queue of track
requests, for six disciplines:

- FCFS (first come, first served);
- SSTF (shortest seek time first);
- SCAN and C-SCAN (sweep to the last track, 199);
- LOOK and C-LOOK (sweep only as far as the last request).

It also computes the total head movement (seek time) of that order. The
same engine exists three times:

- the browser class `DiskScheduler` in `script.js`, which also dispatches a
  discipline by name and searches for the cheapest one;
- the Flask back end's functions in `disk_scheduler.py`, whose sequences
  start with the head, and whose SCAN and LOOK take a direction;
- the console program `Disk_Scheduling.cpp`.

The model is organised as follows:

- `tracks.dfy` (`Tracks`): sorting, reversing and the head-relative filters
  the three copies use. These are library calls in the source. Each is
  modelled as a function whose properties are proved: `SortAsc` is the only
  ascending permutation, so it stands for every library sort.
- `seek.dfy` (`Seek`): the head movement of a path, and how it splits over
  concatenation, monotone sweeps and detours.
- `nearest.dfy` (`Nearest`): the SSTF pick (the first request of least
  distance), the SSTF order, and its permutation and greediness.
- `disciplines.dfy` (`Disciplines`): the sweep orders shared by `script.js`
  and `Disk_Scheduling.cpp`, built from "passes". A pass is the requests on
  one side of the head, sorted one way. The lemmas characterise each order
  exactly.
- `costs.dfy` (`SweepCosts`): closed forms for the head movement of the
  sweeps, and the proof that SCAN (C-SCAN) never beats LOOK (C-LOOK).
- `script_js.dfy` (`ScriptJs`): the class `DiskScheduler`. It has the
  fields `requests` and `headPosition`, one method per discipline, the
  dispatcher and the optimiser. Each method is proved equal to the
  specification function `Evaluate`.
- `disk_scheduler_py.dfy` (`DiskSchedulerPy`): the Flask engine's generators
  as methods over their `for`/`while` loops, proved against the same
  orders (with the head in front) or against the leftward orders only
  Python has.
- `disk_scheduling_cpp.dfy` (`DiskSchedulingCpp`): the console program's
  functions. They return the order and its total instead of printing them.
- `scenarios.dfy` (`Scenarios`): lemmas relating the three copies, and
  worked workloads.

## Model

| member | source | states |
|---|---|---|
| Tracks.Abs | script.js:17 | `Math.abs`: the result is the argument or its negation, and never negative |
| Tracks.SortAsc | script.js:52 | the numeric sort yields an ascending permutation of the requests |
| Tracks.Insert | script.js:52 | one step of the sort: inserting a track into an ascending list keeps it ascending and adds exactly that track |
| Tracks.AscendingUnique | Disk_Scheduling.cpp:57-58 | two ascending sequences with the same elements are equal, so any correct sort gives SortAsc |
| Tracks.Reverse | script.js:64 | `reverse()`: entry i of the result is entry n-1-i of the input |
| Tracks.ReverseMultiset | Disk_Scheduling.cpp:66 | reversing keeps every element with its multiplicity |
| Tracks.ReverseReverse | Disk_Scheduling.cpp:66 | reversing twice gives back the input |
| Tracks.ReverseOrder | script.js:64 | a sequence is ascending exactly when its reverse is descending, and conversely |
| Tracks.Opposite | script.js:59-64 | the opposite side holds exactly the tracks the given side rejects (`>=` against `<`, `<=` against `>`) |
| Tracks.Select | script.js:59 | `filter` keeps only tracks on the chosen side of the head, and never lengthens the list |
| Tracks.SelectMultiset | script.js:59 | `filter` keeps every occurrence of a track on the side, and no other track |
| Tracks.SelectAppend | disk_scheduler.py:38-40 | filtering a list with one more track appends that track exactly when it is on the side |
| Tracks.SelectReverse | disk_scheduler.py:46-48 | filtering the reversed list equals reversing the filtered list |
| Tracks.SelectAscending | script.js:59 | filtering an ascending list leaves it ascending |
| Tracks.SelectAllOrNone | script.js:59 | `filter` keeps the whole list when every track is on the side, and nothing when none is |
| Tracks.SelectSameElements | script.js:52-59 | lists with the same elements give filter results with the same elements and length |
| Tracks.SelectPartition | script.js:59-64 | the two filters of one list split its elements between them, with multiplicity |
| Tracks.AscendingSplits | Disk_Scheduling.cpp:61-64 | on sorted requests, the tracks below the head followed by the tracks at or above it give back the sorted list |
| Seek.SeekCost | script.js:12-19 | the `calculateSeekTime` loop (also Disk_Scheduling.cpp:11-20): the sum of the distances between consecutive positions from the head, 0 for an empty path |
| Seek.Last | script.js:18 | where `currentPosition` rests after the loop: the last track visited, or the head if none was |
| Seek.SeekCostConcat | script.js:16-19 | the movement along two paths in a row is the first's plus the second's from where the first ends |
| Seek.SeekCostAscending | script.js:16-19 | along an ascending path the movement is the distance from the head to the end |
| Seek.SeekCostDescending | script.js:16-19 | along a descending path the movement is the distance from the end to the head |
| Seek.SeekCostDetour | script.js:60-61 | inserting a visit (such as the end track) into a path never lowers its movement |
| Seek.LastOfPath | disk_scheduler.py:42 | `sequence[-1]` of the head followed by a path is where that path leaves the head |
| Nearest.FirstMinimum | Disk_Scheduling.cpp:41-43 | the index of the least entry; every earlier entry is strictly larger |
| Nearest.FirstMinimumUnique | Disk_Scheduling.cpp:41-43 | any index that is minimal and strictly below all earlier entries is FirstMinimum |
| Nearest.FirstMinimumExtend | script.js:38-40 | scanning one more entry moves the minimum only when that entry is strictly smaller |
| Nearest.IndexOf | disk_scheduler.py:22 | `list.index`: the first position holding the value |
| Nearest.Distances | disk_scheduler.py:21 | the distance of each pending track from the current position |
| Nearest.FirstNearest | script.js:38-40 | the SSTF pick: no pending track is nearer, and every earlier track is strictly farther |
| Nearest.FirstNearestExtend | script.js:38-40 | one more pending track becomes the pick only when it is strictly nearer |
| Nearest.FirstNearestUnique | disk_scheduler.py:21-22 | any index that is nearest and strictly nearer than all earlier ones is the pick |
| Nearest.RemoveAt | script.js:43 | `splice(k, 1)` / `pop(k)` / `erase`: one shorter, the removed track taken out once, and the tracks before and after it kept in their order |
| Nearest.SstfOrder | script.js:32-47 | the SSTF order: the first nearest pending track, then SSTF from it over the rest; as long as the request list |
| Nearest.Greedy | script.js:37-44 | what each pick of the SSTF loop promises: at least as near the current position as every track still pending, and so on from it |
| Nearest.SstfPermutation | script.js:32-47 | the SSTF order services every request exactly once |
| Nearest.SstfGreedy | script.js:32-47 | each serviced track is at least as near the previous position as every track still pending |
| Nearest.NearestBeatsEveryPending | script.js:38-40 | the pick is at least as near as every track of any sub-collection of the pending list |
| Nearest.GreedyCons | script.js:41-42 | a nearest first step followed by a greedy rest is greedy |
| Disciplines.Pass | script.js:59-64 | the sorted requests on one side of the head (`filter`), ascending or `reverse`d |
| Disciplines.LookOrder | script.js:91-107 | LOOK: the up pass, then the down pass |
| Disciplines.CLookOrder | script.js:109-125 | C-LOOK: the up pass, then the pass below the head ascending |
| Disciplines.ScanOrder | script.js:49-68 | SCAN: the up pass, 199, then the down pass |
| Disciplines.CScanOrder | script.js:70-89 | C-SCAN: the up pass, 199, 0, then the pass below the head ascending |
| Disciplines.ServiceOrder | script.js:28-125 | the order each discipline method pushes into `sequence` (Disk_Scheduling.cpp builds the same orders) |
| Disciplines.PassCharacterized | script.js:59-64 | a sequence is the pass exactly when it holds that side's requests with multiplicity, sorted in that direction |
| Disciplines.PassLength | script.js:59 | a pass is as long as the number of requests on its side |
| Disciplines.TwoPassCharacterized | script.js:91-107 | a sequence is two passes in a row exactly when its prefix and suffix are those passes |
| Disciplines.TwoPassPermutation | script.js:91-125 | two passes over opposite sides service every request exactly once |
| Disciplines.PassOnSide | script.js:59 | every track of a pass is on its side of the head |
| Disciplines.LookCharacterized | script.js:91-107 | LOOK is exactly: requests at or above the head ascending, then those below descending; a permutation |
| Disciplines.CLookCharacterized | script.js:109-125 | C-LOOK is exactly: requests at or above the head ascending, then those below ascending; a permutation |
| Disciplines.ScanShape | script.js:49-68 | SCAN has n+1 entries, 199 right after the up sweep, is LOOK once that entry is removed, and holds the requests plus 199 |
| Disciplines.CScanShape | script.js:70-89 | C-SCAN has n+2 entries, 199 then 0 right after the up sweep, is C-LOOK without them, and holds the requests plus 199 and 0 |
| Disciplines.AllAtOrAboveHead | script.js:99-104 | when no request lies below the head, LOOK and C-LOOK are the sorted requests; SCAN adds 199, C-SCAN adds 199 and 0 |
| Disciplines.NoRequests | script.js:49-125 | with no requests LOOK and C-LOOK are empty while SCAN is [199] and C-SCAN is [199, 0] |
| Disciplines.UpSweepAscends | script.js:59-60 | the head followed by the up sweep is ascending |
| Disciplines.UpSweepEndsHighest | script.js:59-60 | the up sweep ends at or above the head and at or above every request |
| Disciplines.HighestOfSplit | script.js:59-60 | when a sorted list splits below and at-or-above the head, the up part ends on its maximum |
| Disciplines.AscendingBelowLast | script.js:52 | in an ascending list every entry is at most the last |
| SweepCosts.DownPass | script.js:64 | the down sweep is descending and below the head |
| SweepCosts.WrapPass | script.js:84 | the wrapped sweep of C-SCAN/C-LOOK is ascending, below the head, and not below 0 for tracks not below 0 |
| SweepCosts.LookCost | script.js:91-107 | LOOK moves up to its highest track and then down to its last one |
| SweepCosts.PassWithin | script.js:59 | a pass takes its tracks from the requests |
| SweepCosts.ClimbToEnd | script.js:59-61 | the head, the up sweep and then 199 ascend when no request exceeds 199 |
| SweepCosts.ScanCost | script.js:49-68 | SCAN moves (199 - head) up, then from 199 down to its last track |
| SweepCosts.CScanCost | script.js:70-89 | C-SCAN moves (199 - head) up, 199 back to 0, then up to its last track |
| SweepCosts.CLookCost | script.js:109-125 | C-LOOK climbs to its highest track, jumps to the lowest pending one, then climbs over the rest |
| SweepCosts.ScanNoCheaperThanLook | script.js:49-107 | SCAN never moves the head less than LOOK on the same input |
| SweepCosts.CScanNoCheaperThanCLook | script.js:70-125 | C-SCAN never moves the head less than C-LOOK on the same input |
| SweepCosts.CScanRegroup | script.js:80-86 | pushing 199, then 0, then the left tracks is inserting the pair and then the rest |
| SweepCosts.UpPassWithin | script.js:59-60 | with the head and every request between two bounds, the up sweep ends between them |
| SweepCosts.EndDetourToZero | script.js:80-86 | going on to the end track before the jump to 0 costs exactly the way from where the sweep stopped to that end and back |
| SweepCosts.EndDetourBeforeDown | script.js:60-65 | visiting the end track before turning down costs the way there and back when tracks below remain, and the way there when none do |
| ScriptJs.LowerChar | script.js:128 | the lowering of one character as the model has it: A-Z to a-z, the Kelvin sign to `k`, every other character unchanged |
| ScriptJs.ToLower | script.js:128 | the model's lowering of a name: one character out per character in, each lowered by LowerChar |
| ScriptJs.Name | script.js:129-134 | the case label of each discipline in the dispatcher |
| ScriptJs.ParseAlgorithm | script.js:127-137 | the dispatcher picks the discipline whose name is the lower-cased input, and fails for any other input |
| ScriptJs.LowerOfLower | script.js:128 | lower-case names are their own lower case |
| ScriptJs.ParseName | script.js:127-137 | each name dispatches to its discipline; an input dispatches to a discipline exactly when it lower-cases to its name |
| ScriptJs.AlgorithmsAreNames | script.js:140 | the optimiser tries the six distinct names in the order fcfs, sstf, scan, cscan, look, clook |
| ScriptJs.FoldClosest | script.js:38-40 | the `reduce` from an accumulator: returns the accumulator or a pending track, and never one farther from the position than the accumulator |
| ScriptJs.ReduceClosest | script.js:38-40 | the `reduce` over the pending tracks returns one of them |
| ScriptJs.FoldClosestInvariant | script.js:38-40 | the `reduce` keeps the first nearest track of the prefix it has seen |
| ScriptJs.ReduceClosestIsFirstNearest | script.js:38-43 | `reduce` returns the first nearest pending track, and `indexOf` finds its position |
| ScriptJs.AverageOf | script.js:23 | `seekTime / sequence.length`: NaN exactly for an empty sequence, otherwise the non-negative number that times the length gives the total |
| ScriptJs.Measure | script.js:12-25 | the object `calculateSeekTime` returns: the total movement from the head, its average and the sequence |
| ScriptJs.Evaluate | script.js:28-125 | what the method of each discipline returns: the measure of its order |
| ScriptJs.SeekTimes | script.js:145-147 | the seek time of each of the six disciplines, in trial order |
| ScriptJs.BestIndex | script.js:139-153 | the position of the optimiser's pick in trial order: its seek time is at most every discipline's and strictly below every earlier one's |
| ScriptJs.OptimalSkipsCostlierSweeps | script.js:139-160 | the optimiser picks SCAN (C-SCAN) only when it costs exactly what LOOK (C-LOOK) costs |
| ScriptJs.SstfChosen | script.js:139-160 | the optimiser picks SSTF exactly when SSTF moves strictly less than FCFS and no more than LOOK and C-LOOK |
| ScriptJs.ScanStep | script.js:145-153 | one trial records its result and keeps the first strictly cheapest name |
| ScriptJs.ScanFinished | script.js:139-160 | after all trials the result map holds every name, and the pick is cheapest and strictly cheaper than all earlier names |
| ScriptJs.OptimalIsBestIndex | script.js:139-160 | the optimiser's pick is the first discipline of least seek time, and its results are that discipline's |
| ScriptJs.DiskScheduler.constructor | script.js:2-5 | a new scheduler has no requests and the head at 0 |
| ScriptJs.DiskScheduler.SetParameters | script.js:7-10 | replaces the requests and the head position |
| ScriptJs.DiskScheduler.CalculateSeekTime | script.js:12-25 | returns the sequence unchanged, the movement from the head position, and that total over the sequence length |
| ScriptJs.DiskScheduler.Fcfs | script.js:28-30 | services the requests in the submitted order |
| ScriptJs.DiskScheduler.Sstf | script.js:32-47 | the SSTF order: a permutation of the requests, each pick nearest the previous position |
| ScriptJs.DiskScheduler.Scan | script.js:49-68 | the SCAN order and its cost (shape in Disciplines.ScanShape) |
| ScriptJs.DiskScheduler.CScan | script.js:70-89 | the C-SCAN order and its cost (shape in Disciplines.CScanShape) |
| ScriptJs.DiskScheduler.Look | script.js:91-107 | the LOOK order and its cost (shape in Disciplines.LookCharacterized) |
| ScriptJs.DiskScheduler.CLook | script.js:109-125 | the C-LOOK order and its cost (shape in Disciplines.CLookCharacterized) |
| ScriptJs.DiskScheduler.RunAlgorithm | script.js:127-137 | runs the named discipline, and fails with an invalid-algorithm error exactly when no name matches |
| ScriptJs.DiskScheduler.FindOptimalAlgorithm | script.js:139-160 | every discipline's result keyed by name, and the first name of least seek time with its result |
| DiskSchedulerPy.CalculateSeekTime | disk_scheduler.py:7-8 | the sum of the gaps between neighbours; 0 for a sequence of at most one track |
| DiskSchedulerPy.CalculateSeekTimeFromHead | disk_scheduler.py:7-8 | on the head followed by a path this is the head movement of the path |
| DiskSchedulerPy.MinOf | disk_scheduler.py:22 | `min`: an entry no other entry is below |
| DiskSchedulerPy.MaxOf | disk_scheduler.py:34 | `max`: an entry no other entry is above |
| DiskSchedulerPy.IndexOfMinimumIsFirstNearest | disk_scheduler.py:21-22 | `distances.index(min(distances))` is the first nearest pending track |
| DiskSchedulerPy.AppendWhere | disk_scheduler.py:38-40 | the `for`/`if`/`append` loop appends the tracks on the side, in list order |
| DiskSchedulerPy.ReversedLoopIsDownPass | disk_scheduler.py:46-48 | filtering `reversed(sorted_tracks)` is the descending pass |
| DiskSchedulerPy.AppendPass | disk_scheduler.py:38-48 | a loop over the sorted tracks, or over them reversed, appends that pass |
| DiskSchedulerPy.UpSweepEndsAtMax | disk_scheduler.py:34-43 | after the right sweep the sequence ends on `max(tracks + [head])`, so the `max_track` append never fires |
| DiskSchedulerPy.LeftLookCharacterized | disk_scheduler.py:102-111 | leftward LOOK is exactly: tracks at or below the head descending, then those above ascending; a permutation |
| DiskSchedulerPy.LeftLookOrder | disk_scheduler.py:102-111 | leftward LOOK after the head: tracks at or below the head descending, then those above ascending |
| DiskSchedulerPy.LeftScanOrder | disk_scheduler.py:49-61 | leftward SCAN after the head: as leftward LOOK, with 0 visited after the left sweep unless that sweep ends at 0 |
| DiskSchedulerPy.CScanOrderPy | disk_scheduler.py:65-86 | Python's C-SCAN after the head: the up pass, 0, then the tracks below the head ascending |
| DiskSchedulerPy.RightwardOrder | disk_scheduler.py:10-129 | the order after the head that each generator returns with its default direction `'right'` |
| DiskSchedulerPy.LeftScanCost | disk_scheduler.py:49-61 | with tracks and head not below 0, leftward SCAN moves from the head down to 0 and then up to its last track |
| DiskSchedulerPy.LeftScanPermutation | disk_scheduler.py:49-61 | for every input, leftward SCAN holds the requests plus 0, the 0 added exactly when the left sweep does not end at 0 |
| DiskSchedulerPy.DownToZero | disk_scheduler.py:50-56 | the head, the leftward sweep and the visit to 0 descend |
| DiskSchedulerPy.UpFromZero | disk_scheduler.py:58-61 | from 0 the rightward tracks ascend |
| DiskSchedulerPy.CScanPyNoCheaperThanCLook | disk_scheduler.py:65-86 | C-SCAN holds the requests plus 0 and never moves less than C-LOOK |
| DiskSchedulerPy.Fcfs | disk_scheduler.py:10-13 | the head followed by the tracks, with the movement of the tracks from the head |
| DiskSchedulerPy.Sstf | disk_scheduler.py:15-29 | the head followed by the SSTF order, with its movement |
| DiskSchedulerPy.Scan | disk_scheduler.py:31-63 | rightward: the head then LOOK; otherwise: the head then the leftward SCAN; with their movement |
| DiskSchedulerPy.CScan | disk_scheduler.py:65-86 | the head, the up sweep, 0, then the tracks below the head ascending, with its movement |
| DiskSchedulerPy.Look | disk_scheduler.py:88-113 | rightward: the head then LOOK; otherwise: the head then the leftward LOOK; with their movement |
| DiskSchedulerPy.CLook | disk_scheduler.py:115-129 | the head then C-LOOK, with its movement |
| DiskSchedulingCpp.Report | Disk_Scheduling.cpp:11-24 | the total `calculateSeekTime` prints for a sequence from the head, with that sequence |
| DiskSchedulingCpp.CalculateSeekTime | Disk_Scheduling.cpp:11-24 | the loop's total is the head movement along the sequence from the head |
| DiskSchedulingCpp.Fcfs | Disk_Scheduling.cpp:27-30 | charges the requests in their given order |
| DiskSchedulingCpp.MinElementIsFirstNearest | Disk_Scheduling.cpp:41-43 | `min_element` with this comparator returns exactly the first nearest pending track |
| DiskSchedulingCpp.Sstf | Disk_Scheduling.cpp:33-51 | the SSTF order and its cost; a permutation, each pick nearest the previous position |
| DiskSchedulingCpp.SplitAtHead | Disk_Scheduling.cpp:60-64 | the loop sends tracks at or above the head right and the others left, in sorted order |
| DiskSchedulingCpp.SplitIsPartition | Disk_Scheduling.cpp:57-64 | left followed by right is the sorted requests, and the two sides hold every request exactly once |
| DiskSchedulingCpp.Scan | Disk_Scheduling.cpp:54-73 | right, 199, then left reversed, with its cost |
| DiskSchedulingCpp.CScan | Disk_Scheduling.cpp:76-94 | right, 199, 0, then left, with its cost |
| DiskSchedulingCpp.WithEndAndZero | Disk_Scheduling.cpp:89-91 | pushing 199 and then 0 inserts the pair [199, 0] |
| DiskSchedulingCpp.Look | Disk_Scheduling.cpp:97-115 | right then left reversed, with its cost |
| DiskSchedulingCpp.CLook | Disk_Scheduling.cpp:118-134 | right then left, with its cost |
| Scenarios.SameSeekTimeEverywhere | disk_scheduler.py:7-129 | script.js and Disk_Scheduling.cpp report the same total for every discipline; Python's rightward FCFS, SSTF, LOOK and C-LOOK have their order and report that total too; Python's SCAN and C-SCAN totals are never larger |
| Scenarios.CScanEndVisitCost | disk_scheduler.py:65-86 | with the head and the requests on tracks 0 to 199, the C-SCAN total of script.js and Disk_Scheduling.cpp exceeds Python's by exactly twice the gap from the end of the up sweep to 199 |
| Scenarios.ScanEndVisitCost | disk_scheduler.py:31-48 | on the same inputs their SCAN total exceeds Python's rightward SCAN total by twice that gap when requests below the head remain, and by the gap once when none do |
| Scenarios.EndVisitDropped | disk_scheduler.py:65-86 | Python's C-SCAN is the other copies' C-SCAN with the 199 visit removed; LOOK is their SCAN with it removed |
| Scenarios.SstfTie | script.js:38-39 | of two tracks equally far from the head on either side, SSTF takes the one entered first |
| Scenarios.ThreeSstf | script.js:32-47 | requests c, a, b with b nearest the head and a nearer b than c: SSTF gives b, a, c, moving h - 2a + c |
| Scenarios.ThreeLook | script.js:91-107 | requests a < b < h <= c entered as c, a, b: LOOK gives c, b, a, moving 2c - h - a |
| Scenarios.ThreeCLook | script.js:109-125 | the same requests: C-LOOK gives c, a, b, moving 2c - h - 2a + b |
| Scenarios.ThreeScan | script.js:49-68 | the same requests: SCAN gives c, 199, b, a, moving 398 - h - a |
| Scenarios.ThreeCScan | script.js:70-89 | the same requests: C-SCAN gives c, 199, 0, a, b, moving 398 - h + b |
| Scenarios.ThreePythonScan | disk_scheduler.py:49-61 | the same requests with 0 < a and h < c: leftward SCAN gives b, a, 0, c with total h + c |
| Scenarios.ThreePythonCScan | disk_scheduler.py:65-86 | the same requests: C-SCAN gives c, 0, a, b with total 2c - h + b |
| Scenarios.ThreeOptimal | script.js:139-160 | the three requests with b - a < c - b and 2h <= a + c: the optimiser picks SSTF |
| Scenarios.TextbookFcfs | script.js:28-30 | FCFS on requests 98, 183, 37, 122, 14, 124, 65, 67 from track 53 moves 640 tracks |
| Scenarios.EmptyWorkload | script.js:21-25 | no requests: SCAN still reports [199] and 146, averaged over one entry; FCFS reports NaN; Python's C-SCAN is [0] |
| Scenarios.DispatcherNames | script.js:127-137 | upper case and the Kelvin sign are accepted; a hyphenated name is not |

With `a, b, c, h = 14, 37, 98, 53` the three-request lemmas give the
classic small example:

- SSTF: order 37, 14, 98, cost 123;
- LOOK: cost 129;
- C-LOOK: cost 152;
- SCAN: cost 331;
- C-SCAN: cost 382;
- Python's leftward SCAN: total 151;
- Python's rightward SCAN (LOOK): total 129, which is 331 less twice 199 - 98 (Scenarios.ScanEndVisitCost);
- Python's C-SCAN: total 180, which is 382 less the same amount (Scenarios.CScanEndVisitCost);
- the optimiser: SSTF (Scenarios.ThreeOptimal).

## Behaviour worth knowing

The contracts pin down these points of behaviour:

- SSTF breaks a tie in distance in favour of the request entered earliest
  among those pending, not the lower track number:
  - the strict `<` in the `reduce` (script.js:38-39);
  - `index(min(...))` (disk_scheduler.py:22);
  - `min_element`, which returns the first minimum (Disk_Scheduling.cpp:41-43).
- With no requests the sweeps are not empty:
  - SCAN in `script.js` and `Disk_Scheduling.cpp` still visits 199;
  - C-SCAN there visits 199 and 0;
  - Python's C-SCAN still visits 0.

  (`Disciplines.NoRequests`, `Scenarios.EmptyWorkload`). Such a total is 0
  only when the head already rests on the track visited: SCAN from 199, or
  Python's C-SCAN from 0, whose sequence is then `[0, 0]`.
- On sorted requests, the left tracks followed by the right tracks give back
  the sorted requests (`DiskSchedulingCpp.SplitIsPartition`). The right
  tracks followed by the left tracks are a rotation of them.
- Python's sequences start with the head; the other copies' do not.
- On the same input Python's SCAN and C-SCAN move the head less than those
  of the other copies whenever the up sweep ends below 199
  (`Scenarios.ScanEndVisitCost`, `Scenarios.CScanEndVisitCost`).
- Python's `max_track` append after the right sweep is dead code
  (`DiskSchedulerPy.UpSweepEndsAtMax`):
  - rightward SCAN is exactly LOOK;
  - Python's C-SCAN is the other copies' C-SCAN without the 199 visit
    (`Scenarios.EndVisitDropped`).
- Any direction other than `'right'` selects the leftward sweep in Python.
- The `script.js` average divides by the length of the visited sequence,
  which counts the 199 and 0 visits of SCAN and C-SCAN. It is `NaN` for an
  empty sequence. The model keeps it as an exact real number, with `NaN`
  for the empty case.

## Left out

- Printing: every `cout` in `Disk_Scheduling.cpp`, `calculateSeekTime`'s included. The C++ functions return the order and the total instead.
- The average seek time of `Disk_Scheduling.cpp` (line 23). It is a floating-point division that is only printed.
- Floating point: `script.js` numbers are doubles. Requests and head positions are modelled as unbounded integers, and the average as an exact real number.
- C++ `int` overflow: `Disk_Scheduling.cpp` reads the requests and the head with `cin` and never checks their range, so one `abs(currentPosition - track)` or the running total can exceed 32 bits. The model uses unbounded integers, so it describes the program only on inputs where no such overflow occurs (for example, tracks between 0 and 199 and fewer than ten million moves).
- In-place mutation: the sorting of `remaining` in place and the `push` into `sequence` in `script.js` are modelled on values (`seq`). No other code holds these arrays, so no aliasing is lost.
- `DISK_SIZE` (Disk_Scheduling.cpp:8) is defined but never used; 199 is hard-coded where the source uses it.
- ScriptJs.ToLower: models the `toLowerCase` of `runAlgorithm` only for the characters that can lower-case to an ASCII letter, A-Z and the Kelvin sign. Every other character is kept unchanged, although JavaScript lowers some of them to other characters or to longer strings (U+0130 becomes two code units). The lower case of any such character holds a character that is not a lower-case ASCII letter, so it cannot make an input equal a name, and the dispatcher's choice is the same.
- Exceptions: `runAlgorithm`'s `throw` becomes the result `Failure(InvalidAlgorithm)`.
- The Flask routes and `app` of `disk_scheduler.py`, `main` of `Disk_Scheduling.cpp`, and `getInputValues` are input and output plumbing around the engine.
- `DiskVisualizer` and the page handlers of `script.js`, `ml-model.js` and `Disk_Request_generator.py`: charts, timers, a foreign machine-learning library, randomness and CSV files.
- The eight-request SSTF example (order 65, 67, 37, 14, 98, 122, 124, 183, cost 236) is not stated as a lemma. SSTF is stated on three symbolic requests (Scenarios.ThreeSstf), and Nearest.SstfPermutation and Nearest.SstfGreedy hold for every input.
- ScriptJs.DiskScheduler.Scan, ScriptJs.DiskScheduler.CScan, ScriptJs.DiskScheduler.Look, ScriptJs.DiskScheduler.CLook: each `ensures` states only that the result equals `Evaluate` of the discipline. The shape (lengths n+1 and n+2, the 199 and 0 entries, permutation) is proved about those orders in Disciplines.ScanShape, Disciplines.CScanShape, Disciplines.LookCharacterized and Disciplines.CLookCharacterized.
