/** Playlist expansion (`buildVirtualPlaylist`, runner.js:122-216).

    The expansion runs in two passes. The first walks the laps in order and, within a
    lap, the lap list in order, deciding for each task whether it fires; the firings of
    one lap form that lap's bucket (`tasksByLap[lap]`). Two Maps carry the bookkeeping
    from one decision to the next: the lap each task last fired on, and how often it
    has fired. The second pass flattens the buckets into the session playlist, adding
    each entry's lap position, its task's total occurrence count, and the running
    sums used for progress display.

    The functions below state each pass as a recursion over the input; the method
    `BuildVirtualPlaylist` is the loop program of the source, proved equal to them. */
module Playlist {
  import opened Tasks
  import Duration

  /** A provisional bucket entry: `{taskId, calculatedDuration, baseDuration, occurrences}`. */
  datatype Fired = Fired(taskId: TaskId, calculatedDuration: int, baseDuration: int, occurrences: nat)

  /** A `virtualSessionPlaylist` entry. */
  datatype Entry = Entry(
    taskId: TaskId,
    calculatedDuration: int,
    baseDuration: int,
    occurrences: nat,
    lap: nat,
    totalTasksInLap: nat,
    taskIndexInLap: nat,
    totalOccurrences: int)

  /** The `lastRunLap` and `totalTaskOccurrencesMap` Maps. */
  datatype Tally = Tally(lastRun: map<TaskId, int>, counts: map<TaskId, nat>)

  /** A lap's bucket so far, with the bookkeeping after it. */
  datatype LapScan = LapScan(bucket: seq<Fired>, tally: Tally)

  /** The buckets of the laps visited so far, with the bookkeeping after them. */
  datatype Buckets = Buckets(buckets: seq<seq<Fired>>, tally: Tally)

  /** What `buildVirtualPlaylist` returns. */
  datatype PlaylistData = PlaylistData(
    playlist: seq<Entry>,                      // virtualSessionPlaylist
    lapDurations: seq<int>,
    lapStartCumulativeDurations: seq<int>,
    cumulativeSessionDurations: seq<int>,
    totalSessionDuration: int,
    activeLapMap: map<nat, nat>,
    totalActiveLaps: nat,
    totalTaskOccurrencesMap: map<TaskId, nat>)

  const Empty := Tally(map[], map[])

  /** `task.lapInterval || 1`. */
  function Interval(t: Task): (r: int)
    ensures r != 0
  {
    if t.lapInterval == 0 then 1 else t.lapInterval
  }

  /** `totalTaskOccurrencesMap.get(taskId) || 0`. */
  function Occ(counts: map<TaskId, nat>, id: TaskId): nat {
    if id in counts then counts[id] else 0
  }

  /** `lastRunLap.has(taskId) ? lastRunLap.get(taskId) : -1`. */
  function LastRun(lastRun: map<TaskId, int>, id: TaskId): int {
    if id in lastRun then lastRun[id] else -1
  }

  /** runner.js:142: a capped task that has used up its occurrences is skipped. */
  predicate Capped(t: Task, soFar: nat) {
    t.maxOccurrences > 0 && soFar >= t.maxOccurrences
  }

  /** runner.js:147: the recurrence test, counted from the lap the task last fired on. */
  predicate Due(t: Task, lap: nat, last: int) {
    lap == 0 || (lap > last && (lap - last) % Interval(t) == 0)
  }

  /** One step of `state.lapList.forEach` on lap `lap`: the decision for one lap-list id. */
  function Visit(taskMap: map<TaskId, Task>, lap: nat, id: TaskId, s: LapScan): LapScan {
    if id !in taskMap then s
    else
      var t := taskMap[id];
      var soFar := Occ(s.tally.counts, id);
      if Capped(t, soFar) || !Due(t, lap, LastRun(s.tally.lastRun, id)) then s
      else
        var n := soFar + 1;
        LapScan(s.bucket + [Fired(id, Duration.Calculated(t.duration, t.growthFactor, n), t.duration, n)],
                Tally(s.tally.lastRun[id := lap], s.tally.counts[id := n]))
  }

  /** The lap-list loop of one lap over the ids `ids`, starting from `s`. */
  function ScanLap(taskMap: map<TaskId, Task>, lap: nat, ids: seq<TaskId>, s: LapScan): LapScan
    decreases |ids|
  {
    if |ids| == 0 then s
    else Visit(taskMap, lap, ids[|ids| - 1], ScanLap(taskMap, lap, ids[..|ids| - 1], s))
  }

  /** The first pass over laps 0 .. laps-1. */
  function FirstPass(taskMap: map<TaskId, Task>, lapList: seq<TaskId>, laps: nat): (r: Buckets)
    ensures |r.buckets| == laps
    decreases laps
  {
    if laps == 0 then Buckets([], Empty)
    else
      var p := FirstPass(taskMap, lapList, laps - 1);
      var sc := ScanLap(taskMap, laps - 1, lapList, LapScan([], p.tally));
      Buckets(p.buckets + [sc.bucket], sc.tally)
  }

  /** runner.js:188-192: the cap if there is one, else the final occurrence count. */
  function TotalOccurrences(taskMap: map<TaskId, Task>, counts: map<TaskId, nat>, id: TaskId): int {
    if id in taskMap && taskMap[id].maxOccurrences > 0 then taskMap[id].maxOccurrences else Occ(counts, id)
  }

  /** The full entry for position `k` (0-based) of a lap's bucket. */
  function Annotated(f: Fired, lap: nat, size: nat, k: nat, taskMap: map<TaskId, Task>, counts: map<TaskId, nat>): Entry {
    Entry(f.taskId, f.calculatedDuration, f.baseDuration, f.occurrences, lap, size, k + 1,
          TotalOccurrences(taskMap, counts, f.taskId))
  }

  /** The entries the second pass makes of the bucket of lap `lap`. */
  function Annotate(bucket: seq<Fired>, lap: nat, taskMap: map<TaskId, Task>, counts: map<TaskId, nat>): (r: seq<Entry>)
    ensures |r| == |bucket|
  {
    seq(|bucket|, k requires 0 <= k < |bucket| => Annotated(bucket[k], lap, |bucket|, k, taskMap, counts))
  }

  /** The second pass: the buckets in lap order, flattened into the session playlist. */
  function SecondPass(buckets: seq<seq<Fired>>, taskMap: map<TaskId, Task>, counts: map<TaskId, nat>): seq<Entry>
    decreases |buckets|
  {
    if |buckets| == 0 then []
    else SecondPass(buckets[..|buckets| - 1], taskMap, counts)
         + Annotate(buckets[|buckets| - 1], |buckets| - 1, taskMap, counts)
  }

  /** Sum of the calculated durations in a bucket. */
  function SumFired(b: seq<Fired>): int
    decreases |b|
  {
    if |b| == 0 then 0 else SumFired(b[..|b| - 1]) + b[|b| - 1].calculatedDuration
  }

  /** Sum of the calculated durations of all buckets. */
  function SumBuckets(bs: seq<seq<Fired>>): int
    decreases |bs|
  {
    if |bs| == 0 then 0 else SumBuckets(bs[..|bs| - 1]) + SumFired(bs[|bs| - 1])
  }

  /** Sum of the calculated durations of playlist entries. */
  function SumEntries(p: seq<Entry>): int
    decreases |p|
  {
    if |p| == 0 then 0 else SumEntries(p[..|p| - 1]) + p[|p| - 1].calculatedDuration
  }

  /** `lapDurations`: one sum per lap. */
  function LapDurations(bs: seq<seq<Fired>>): (r: seq<int>)
    ensures |r| == |bs|
    decreases |bs|
  {
    if |bs| == 0 then [] else LapDurations(bs[..|bs| - 1]) + [SumFired(bs[|bs| - 1])]
  }

  /** `lapStartCumulativeDurations`: for each lap, the total of the laps before it. */
  function LapStarts(bs: seq<seq<Fired>>): (r: seq<int>)
    ensures |r| == |bs|
    decreases |bs|
  {
    if |bs| == 0 then [] else LapStarts(bs[..|bs| - 1]) + [SumBuckets(bs[..|bs| - 1])]
  }

  /** `cumulativeSessionDurations`: for each entry, the total of the entries before it. */
  function Cumulative(p: seq<Entry>): (r: seq<int>)
    ensures |r| == |p|
    decreases |p|
  {
    if |p| == 0 then [] else Cumulative(p[..|p| - 1]) + [SumEntries(p[..|p| - 1])]
  }

  /** `activeLapCounter` after the given laps: how many of them have a non-empty bucket. */
  function ActiveCount(bs: seq<seq<Fired>>): nat
    decreases |bs|
  {
    if |bs| == 0 then 0 else ActiveCount(bs[..|bs| - 1]) + (if |bs[|bs| - 1]| > 0 then 1 else 0)
  }

  /** `activeLapMap`: each non-empty lap is given the next active-lap number. */
  function ActiveLaps(bs: seq<seq<Fired>>): map<nat, nat>
    decreases |bs|
  {
    if |bs| == 0 then map[]
    else if |bs[|bs| - 1]| > 0 then ActiveLaps(bs[..|bs| - 1])[|bs| - 1 := ActiveCount(bs)]
    else ActiveLaps(bs[..|bs| - 1])
  }

  /** The whole result of `buildVirtualPlaylist(taskMap, totalLaps)` with `state.lapList == lapList`. */
  function Expand(taskMap: map<TaskId, Task>, lapList: seq<TaskId>, totalLaps: nat): PlaylistData {
    var p1 := FirstPass(taskMap, lapList, totalLaps);
    var p := SecondPass(p1.buckets, taskMap, p1.tally.counts);
    PlaylistData(p, LapDurations(p1.buckets), LapStarts(p1.buckets), Cumulative(p), SumEntries(p),
                 ActiveLaps(p1.buckets), ActiveCount(p1.buckets), p1.tally.counts)
  }

  /** Every firing of the first pass is of a task the map knows. */
  lemma {:induction false} ScanLapKnown(taskMap: map<TaskId, Task>, lap: nat, ids: seq<TaskId>, s: LapScan)
    requires forall f :: f in s.bucket ==> f.taskId in taskMap
    ensures forall f :: f in ScanLap(taskMap, lap, ids, s).bucket ==> f.taskId in taskMap
    decreases |ids|
  {
    if |ids| > 0 {
      ScanLapKnown(taskMap, lap, ids[..|ids| - 1], s);
    }
  }

  lemma {:induction false} FirstPassKnown(taskMap: map<TaskId, Task>, lapList: seq<TaskId>, laps: nat)
    ensures forall b, f :: b in FirstPass(taskMap, lapList, laps).buckets && f in b ==> f.taskId in taskMap
    decreases laps
  {
    if laps > 0 {
      var p := FirstPass(taskMap, lapList, laps - 1);
      FirstPassKnown(taskMap, lapList, laps - 1);
      ScanLapKnown(taskMap, laps - 1, lapList, LapScan([], p.tally));
    }
  }

  /** The inner loop of the first pass (runner.js:135-171): one lap over the lap list. */
  method ScanOneLap(taskMap: map<TaskId, Task>, lapList: seq<TaskId>, lap: nat, before: Tally)
    returns (bucket: seq<Fired>, after: Tally)
    ensures ScanLap(taskMap, lap, lapList, LapScan([], before)) == LapScan(bucket, after)
  {
    bucket := [];
    var lastRunLap := before.lastRun;
    var totalTaskOccurrencesMap: map<TaskId, nat> := before.counts;
    var j := 0;
    while j < |lapList|
      invariant j <= |lapList|
      invariant ScanLap(taskMap, lap, lapList[..j], LapScan([], before))
             == LapScan(bucket, Tally(lastRunLap, totalTaskOccurrencesMap))
    {
      var taskId := lapList[j];
      if taskId in taskMap {
        var task := taskMap[taskId];
        var interval := if task.lapInterval == 0 then 1 else task.lapInterval;
        var maxOccurrences := task.maxOccurrences;
        var occurrencesSoFar := if taskId in totalTaskOccurrencesMap then totalTaskOccurrencesMap[taskId] else 0;
        if !(maxOccurrences > 0 && occurrencesSoFar >= maxOccurrences) {
          var lastRun := if taskId in lastRunLap then lastRunLap[taskId] else -1;
          if lap == 0 || (lap > lastRun && (lap - lastRun) % interval == 0) {
            var occurrences := occurrencesSoFar + 1;
            totalTaskOccurrencesMap := totalTaskOccurrencesMap[taskId := occurrences];
            var calculatedDuration := Duration.Calculated(task.duration, task.growthFactor, occurrences);
            bucket := bucket + [Fired(taskId, calculatedDuration, task.duration, occurrences)];
            lastRunLap := lastRunLap[taskId := lap];
          }
        }
      }
      assert lapList[..j + 1][..j] == lapList[..j];
      j := j + 1;
    }
    assert lapList[..|lapList|] == lapList;
    after := Tally(lastRunLap, totalTaskOccurrencesMap);
  }

  /** The summing loop of runner.js:175-178. */
  method SumBucket(bucket: seq<Fired>) returns (lapDuration: int)
    ensures lapDuration == SumFired(bucket)
  {
    lapDuration := 0;
    var k := 0;
    while k < |bucket|
      invariant k <= |bucket|
      invariant lapDuration == SumFired(bucket[..k])
    {
      assert bucket[..k + 1][..k] == bucket[..k];
      lapDuration := lapDuration + bucket[k].calculatedDuration;
      k := k + 1;
    }
    assert bucket[..|bucket|] == bucket;
  }

  /** The inner loop of the second pass (runner.js:186-203): the entries of one lap,
      appended to the playlist built so far together with their running sums. */
  method AppendLap(bucket: seq<Fired>, l: nat, taskMap: map<TaskId, Task>, counts: map<TaskId, nat>,
                   done: seq<Entry>, doneCumulative: seq<int>, doneTotal: int)
    returns (playlist: seq<Entry>, cumulativeSessionDurations: seq<int>, currentCumulativeDuration: int)
    requires forall f :: f in bucket ==> f.taskId in taskMap
    requires doneCumulative == Cumulative(done) && doneTotal == SumEntries(done)
    ensures playlist == done + Annotate(bucket, l, taskMap, counts)
    ensures cumulativeSessionDurations == Cumulative(playlist)
    ensures currentCumulativeDuration == SumEntries(playlist)
  {
    playlist, cumulativeSessionDurations, currentCumulativeDuration := done, doneCumulative, doneTotal;
    ghost var entries := Annotate(bucket, l, taskMap, counts);
    var totalTasksInLap := |bucket|;
    var indexInLap := 0;
    while indexInLap < totalTasksInLap
      invariant indexInLap <= totalTasksInLap
      invariant playlist == done + entries[..indexInLap]
      invariant cumulativeSessionDurations == Cumulative(playlist)
      invariant currentCumulativeDuration == SumEntries(playlist)
    {
      var taskInfo := bucket[indexInLap];
      var entry := MakeEntry(taskInfo, l, totalTasksInLap, indexInLap, taskMap, counts);
      assert entry == entries[indexInLap];
      assert entries[..indexInLap + 1] == entries[..indexInLap] + [entry];
      ghost var prev := playlist;
      playlist := playlist + [entry];
      assert playlist[..|playlist| - 1] == prev;
      cumulativeSessionDurations := cumulativeSessionDurations + [currentCumulativeDuration];
      currentCumulativeDuration := currentCumulativeDuration + taskInfo.calculatedDuration;
      indexInLap := indexInLap + 1;
    }
    assert entries[..totalTasksInLap] == entries;
  }

  /** The first pass of runner.js:133-180: the buckets lap by lap, with the per-lap
      sums and the active-lap numbering computed alongside. */
  method BucketLaps(taskMap: map<TaskId, Task>, lapList: seq<TaskId>, totalLaps: nat)
    returns (tasksByLap: seq<seq<Fired>>, tally: Tally, lapDurations: seq<int>, lapStartCumulativeDurations: seq<int>,
             activeLapMap: map<nat, nat>, activeLapCounter: nat)
    ensures FirstPass(taskMap, lapList, totalLaps) == Buckets(tasksByLap, tally)
    ensures lapDurations == LapDurations(tasksByLap)
    ensures lapStartCumulativeDurations == LapStarts(tasksByLap)
    ensures activeLapMap == ActiveLaps(tasksByLap) && activeLapCounter == ActiveCount(tasksByLap)
  {
    tasksByLap, tally, lapDurations, lapStartCumulativeDurations := [], Empty, [], [];
    activeLapMap, activeLapCounter := map[], 0;
    var currentCumulativeDuration := 0;
    var lap: nat := 0;
    while lap < totalLaps
      invariant lap <= totalLaps
      invariant FirstPass(taskMap, lapList, lap) == Buckets(tasksByLap, tally)
      invariant |tasksByLap| == lap
      invariant lapDurations == LapDurations(tasksByLap)
      invariant lapStartCumulativeDurations == LapStarts(tasksByLap)
      invariant currentCumulativeDuration == SumBuckets(tasksByLap)
      invariant activeLapMap == ActiveLaps(tasksByLap) && activeLapCounter == ActiveCount(tasksByLap)
    {
      lapStartCumulativeDurations := lapStartCumulativeDurations + [currentCumulativeDuration];
      var bucket;
      bucket, tally := ScanOneLap(taskMap, lapList, lap, tally);
      tasksByLap := tasksByLap + [bucket];
      var lapDuration;
      lapDuration, activeLapMap, activeLapCounter, currentCumulativeDuration :=
        CloseLap(tasksByLap[..lap], bucket, activeLapMap, activeLapCounter, currentCumulativeDuration);
      assert tasksByLap[..lap] + [bucket] == tasksByLap;
      lapDurations := lapDurations + [lapDuration];
      lap := lap + 1;
    }
  }

  /** The bookkeeping once a lap's bucket is filled (runner.js:172-179): a non-empty lap gets
      the next active-lap number, and its durations are added to the lap's and the running
      total. `before` is the buckets of the earlier laps. */
  method CloseLap(before: seq<seq<Fired>>, bucket: seq<Fired>, activeLapMap: map<nat, nat>,
                  activeLapCounter: nat, currentCumulativeDuration: int)
    returns (lapDuration: int, newActiveLapMap: map<nat, nat>, newActiveLapCounter: nat, newCumulativeDuration: int)
    requires activeLapMap == ActiveLaps(before) && activeLapCounter == ActiveCount(before)
    requires currentCumulativeDuration == SumBuckets(before)
    ensures LapDurations(before + [bucket]) == LapDurations(before) + [lapDuration]
    ensures newActiveLapMap == ActiveLaps(before + [bucket]) && newActiveLapCounter == ActiveCount(before + [bucket])
    ensures newCumulativeDuration == SumBuckets(before + [bucket])
  {
    assert (before + [bucket])[..|before|] == before;
    lapDuration, newActiveLapMap, newActiveLapCounter, newCumulativeDuration :=
      0, activeLapMap, activeLapCounter, currentCumulativeDuration;
    if |bucket| > 0 {
      newActiveLapCounter := activeLapCounter + 1;
      newActiveLapMap := activeLapMap[|before| := newActiveLapCounter];
      lapDuration := SumBucket(bucket);
      newCumulativeDuration := currentCumulativeDuration + lapDuration;
    }
  }

  /** One entry of the second pass (runner.js:187-202): the firing, its lap, the lap's size,
      its 1-based position in the lap and its task's total occurrences. */
  method MakeEntry(taskInfo: Fired, l: nat, totalTasksInLap: nat, indexInLap: nat,
                   taskMap: map<TaskId, Task>, counts: map<TaskId, nat>)
    returns (entry: Entry)
    requires taskInfo.taskId in taskMap
    ensures entry == Annotated(taskInfo, l, totalTasksInLap, indexInLap, taskMap, counts)
  {
    var task := taskMap[taskInfo.taskId];
    var maxOccurrences := task.maxOccurrences;
    var totalOccurrences := if maxOccurrences > 0 then maxOccurrences
                            else if taskInfo.taskId in counts then counts[taskInfo.taskId] else 0;
    entry := Entry(taskInfo.taskId, taskInfo.calculatedDuration, taskInfo.baseDuration,
                   taskInfo.occurrences, l, totalTasksInLap, indexInLap + 1, totalOccurrences);
  }

  /** The second pass of runner.js:181-204: the buckets flattened into the playlist. */
  method Flatten(tasksByLap: seq<seq<Fired>>, taskMap: map<TaskId, Task>, counts: map<TaskId, nat>)
    returns (playlist: seq<Entry>, cumulativeSessionDurations: seq<int>, currentCumulativeDuration: int)
    requires forall b, f :: b in tasksByLap && f in b ==> f.taskId in taskMap
    ensures playlist == SecondPass(tasksByLap, taskMap, counts)
    ensures cumulativeSessionDurations == Cumulative(playlist)
    ensures currentCumulativeDuration == SumEntries(playlist)
  {
    playlist, cumulativeSessionDurations, currentCumulativeDuration := [], [], 0;
    var l := 0;
    while l < |tasksByLap|
      invariant l <= |tasksByLap|
      invariant playlist == SecondPass(tasksByLap[..l], taskMap, counts)
      invariant cumulativeSessionDurations == Cumulative(playlist)
      invariant currentCumulativeDuration == SumEntries(playlist)
    {
      assert tasksByLap[l] in tasksByLap;
      playlist, cumulativeSessionDurations, currentCumulativeDuration :=
        AppendLap(tasksByLap[l], l, taskMap, counts, playlist, cumulativeSessionDurations, currentCumulativeDuration);
      assert tasksByLap[..l + 1][..l] == tasksByLap[..l];
      l := l + 1;
    }
    assert tasksByLap[..|tasksByLap|] == tasksByLap;
  }

  /** `buildVirtualPlaylist(taskMap, totalLaps)` with `state.lapList == lapList`. */
  method BuildVirtualPlaylist(taskMap: map<TaskId, Task>, lapList: seq<TaskId>, totalLaps: nat)
    returns (r: PlaylistData)
    ensures r == Expand(taskMap, lapList, totalLaps)
  {
    var tasksByLap, tally, lapDurations, lapStartCumulativeDurations, activeLapMap, activeLapCounter :=
      BucketLaps(taskMap, lapList, totalLaps);
    FirstPassKnown(taskMap, lapList, totalLaps);
    var playlist, cumulativeSessionDurations, totalSessionDuration := Flatten(tasksByLap, taskMap, tally.counts);
    r := PlaylistData(playlist, lapDurations, lapStartCumulativeDurations, cumulativeSessionDurations,
                      totalSessionDuration, activeLapMap, activeLapCounter, tally.counts);
  }
}
