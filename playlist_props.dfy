/** What `buildVirtualPlaylist` promises, stated on its result `Expand(taskMap, lapList, totalLaps)`. */
module PlaylistProps {
  import opened Tasks
  import opened Playlist
  import opened PlaylistLog
  import opened PlaylistShape
  import Duration
  import opened Seqs

  /** How many entries of `p` are of task `id`. */
  function Count(p: seq<Entry>, id: TaskId): nat {
    CountF(Firings(p), id)
  }

  /** The lap of the latest entry of task `id` in `p`, or -1. */
  function LastLap(p: seq<Entry>, id: TaskId): int {
    LastLapF(Firings(p), id)
  }

  /** Entries of `id` on the laps before `lap`. */
  function CountBefore(p: seq<Entry>, id: TaskId, lap: nat): nat {
    Count(EarlierEntries(p, lap), id)
  }

  /** The last lap before `lap` on which `id` has an entry, or -1. */
  function LastBefore(p: seq<Entry>, id: TaskId, lap: nat): int {
    LastLap(EarlierEntries(p, lap), id)
  }

  /** Lap `lap`'s bucket is made when the first pass reaches it, and later laps leave it alone. */
  lemma {:induction false} BucketOf(taskMap: map<TaskId, Task>, lapList: seq<TaskId>, laps: nat, lap: nat)
    requires lap < laps
    ensures FirstPass(taskMap, lapList, laps).buckets[lap]
         == ScanLap(taskMap, lap, lapList, LapScan([], FirstPass(taskMap, lapList, lap).tally)).bucket
    ensures FirstPass(taskMap, lapList, laps).buckets[..lap] == FirstPass(taskMap, lapList, lap).buckets
    decreases laps
  {
    var b := FirstPass(taskMap, lapList, laps).buckets;
    var front := FirstPass(taskMap, lapList, laps - 1).buckets;
    assert b[..laps - 1] == front;
    if lap < laps - 1 {
      BucketOf(taskMap, lapList, laps - 1, lap);
      assert b[lap] == front[lap] && b[..lap] == front[..lap];
    }
  }

  /** The playlist is the log of the first pass, which obeys the first-pass invariant. */
  lemma ExpandLog(taskMap: map<TaskId, Task>, lapList: seq<TaskId>, totalLaps: nat)
    ensures var b := FirstPass(taskMap, lapList, totalLaps);
            Firings(Expand(taskMap, lapList, totalLaps).playlist) == Log(b.buckets)
            && Hist(taskMap, Log(b.buckets), b.tally, totalLaps)
  {
    var b := FirstPass(taskMap, lapList, totalLaps);
    FiringsOfSecondPass(b.buckets, taskMap, b.tally.counts);
    FirstPassHist(taskMap, lapList, totalLaps);
  }

  /** runner.js:136-137, 150-162: every entry is of a task in the map; its base duration is the
      task's, and its calculated duration is the growth rule applied to its occurrence number
      (unchanged for a zero growth factor, otherwise inside 1 .. 86399). */
  lemma EntryDurations(taskMap: map<TaskId, Task>, lapList: seq<TaskId>, totalLaps: nat)
    ensures var p := Expand(taskMap, lapList, totalLaps).playlist;
      forall k :: 0 <= k < |p| ==>
        p[k].taskId in taskMap &&
        var t := taskMap[p[k].taskId];
        p[k].occurrences >= 1 && p[k].baseDuration == t.duration
        && p[k].calculatedDuration == Duration.Calculated(t.duration, t.growthFactor, p[k].occurrences)
        && (t.growthFactor == 0 ==> p[k].calculatedDuration == t.duration)
        && (t.growthFactor != 0 ==> MinDurationSeconds <= p[k].calculatedDuration <= MaxDurationSeconds)
  {
    var p := Expand(taskMap, lapList, totalLaps).playlist;
    ExpandLog(taskMap, lapList, totalLaps);
    forall k | 0 <= k < |p| ensures GoodFiring(taskMap, Firings(p)[k]) {
    }
  }

  /** Every entry of the expansion is of a task of the map. */
  lemma EntriesKnown(taskMap: map<TaskId, Task>, lapList: seq<TaskId>, totalLaps: nat)
    ensures var p := Expand(taskMap, lapList, totalLaps).playlist;
            forall k :: 0 <= k < |p| ==> p[k].taskId in taskMap
  {
    EntryDurations(taskMap, lapList, totalLaps);
  }

  /** runner.js:139-144: a capped task never has more entries than its cap. */
  lemma OccurrenceCap(taskMap: map<TaskId, Task>, lapList: seq<TaskId>, totalLaps: nat)
    ensures var p := Expand(taskMap, lapList, totalLaps).playlist;
      forall id :: id in taskMap && taskMap[id].maxOccurrences > 0 ==> Count(p, id) <= taskMap[id].maxOccurrences
  {
    ExpandLog(taskMap, lapList, totalLaps);
  }

  /** runner.js:148: a task's entries are numbered 1, 2, 3, ... in playlist order. */
  lemma OccurrenceNumbering(taskMap: map<TaskId, Task>, lapList: seq<TaskId>, totalLaps: nat)
    ensures var p := Expand(taskMap, lapList, totalLaps).playlist;
      forall k :: 0 <= k < |p| ==> p[k].occurrences == Count(p[..k + 1], p[k].taskId)
  {
    var p := Expand(taskMap, lapList, totalLaps).playlist;
    ExpandLog(taskMap, lapList, totalLaps);
    forall k | 0 <= k < |p| ensures p[k].occurrences == Count(p[..k + 1], p[k].taskId) {
      FiringsPrefix(p, k + 1);
      assert Firings(p)[k].fired.occurrences == p[k].occurrences;
    }
  }

  /** runner.js:188-192, 214: `totalOccurrences` is the cap when there is one, else the task's number
      of entries; `totalTaskOccurrencesMap` holds each task's number of entries. */
  lemma TotalOccurrencesRule(taskMap: map<TaskId, Task>, lapList: seq<TaskId>, totalLaps: nat)
    ensures var r := Expand(taskMap, lapList, totalLaps);
      (forall k :: 0 <= k < |r.playlist| ==>
         r.playlist[k].taskId in taskMap &&
         r.playlist[k].totalOccurrences
         == if taskMap[r.playlist[k].taskId].maxOccurrences > 0 then taskMap[r.playlist[k].taskId].maxOccurrences
            else Count(r.playlist, r.playlist[k].taskId))
      && (forall id :: Occ(r.totalTaskOccurrencesMap, id) == Count(r.playlist, id))
  {
    var b := FirstPass(taskMap, lapList, totalLaps);
    var r := Expand(taskMap, lapList, totalLaps);
    ExpandLog(taskMap, lapList, totalLaps);
    EntryDurations(taskMap, lapList, totalLaps);
    SecondPassPlaced(b.buckets, taskMap, b.tally.counts);
    forall k | 0 <= k < |r.playlist| ensures Placed(b.buckets, taskMap, b.tally.counts, r.playlist[k]) {
      assert r.playlist[k] in r.playlist;
    }
  }

  /** runner.js:146-147: after lap 0 a task fires only a whole number of intervals after
      the lap of its previous entry. */
  lemma RecurrenceRule(taskMap: map<TaskId, Task>, lapList: seq<TaskId>, totalLaps: nat)
    ensures var p := Expand(taskMap, lapList, totalLaps).playlist;
      forall k :: 0 <= k < |p| ==>
        var last := LastLap(p[..k], p[k].taskId);
        p[k].taskId in taskMap
        && (p[k].lap == 0 || (p[k].lap > last && (p[k].lap - last) % Interval(taskMap[p[k].taskId]) == 0))
  {
    var p := Expand(taskMap, lapList, totalLaps).playlist;
    ExpandLog(taskMap, lapList, totalLaps);
    forall k | 0 <= k < |p|
      ensures p[k].taskId in taskMap && Due(taskMap[p[k].taskId], p[k].lap, LastLap(p[..k], p[k].taskId))
    {
      FiringsPrefix(p, k);
      assert GoodFiring(taskMap, Firings(p)[k]) && OnSchedule(taskMap, Firings(p), k);
    }
  }

  /** When lap `lap` begins, the Maps of the first pass hold the counts and last laps of the entries before it. */
  lemma StartOfLap(taskMap: map<TaskId, Task>, lapList: seq<TaskId>, totalLaps: nat, lap: nat, id: TaskId)
    requires lap < totalLaps
    ensures var p := Expand(taskMap, lapList, totalLaps).playlist;
            var t := FirstPass(taskMap, lapList, lap).tally;
            Occ(t.counts, id) == CountBefore(p, id, lap) && LastRun(t.lastRun, id) == LastBefore(p, id, lap)
  {
    var b := FirstPass(taskMap, lapList, totalLaps);
    var p := Expand(taskMap, lapList, totalLaps).playlist;
    BucketOf(taskMap, lapList, totalLaps, lap);
    EarlierEntriesOfSecondPass(b.buckets, taskMap, b.tally.counts, lap);
    FiringsOfSecondPass(b.buckets[..lap], taskMap, b.tally.counts);
    FirstPassHist(taskMap, lapList, lap);
  }

  /** The ids of `ids` that `Filtered` keeps are exactly those whose decision is to fire. */
  lemma {:induction false} FilteredMembers(taskMap: map<TaskId, Task>, lap: nat, ids: seq<TaskId>, t: Tally, id: TaskId)
    ensures (exists f :: f in Filtered(taskMap, lap, ids, t) && f.taskId == id) <==> id in ids && Fires(taskMap, lap, id, t)
    decreases |ids|
  {
    if |ids| > 0 {
      var front, last := ids[..|ids| - 1], ids[|ids| - 1];
      FilteredMembers(taskMap, lap, front, t, id);
      assert ids == front + [last];
      var r := Filtered(taskMap, lap, ids, t);
      if id in ids && Fires(taskMap, lap, id, t) {
        if id == last {
          assert FiredOf(taskMap, id, t) in r;
        } else {
          assert id in front;
          var f :| f in Filtered(taskMap, lap, front, t) && f.taskId == id;
          assert f in r;
        }
      }
    }
  }

  /** The recurrence rule in both directions (runner.js:135-147, with a duplicate-free lap list):
      task `id` has an entry on lap `lap` exactly when it is in the lap list and the map, has not
      used up its cap on the earlier laps, and lap `lap` is 0 or a whole number of intervals after
      the last earlier lap it ran on. */
  lemma FiresIff(taskMap: map<TaskId, Task>, lapList: seq<TaskId>, totalLaps: nat, lap: nat, id: TaskId)
    requires NoDup(lapList) && lap < totalLaps
    ensures var p := Expand(taskMap, lapList, totalLaps).playlist;
      (exists k :: 0 <= k < |p| && p[k].lap == lap && p[k].taskId == id)
      <==> id in lapList && id in taskMap && !Capped(taskMap[id], CountBefore(p, id, lap))
           && Due(taskMap[id], lap, LastBefore(p, id, lap))
  {
    var b := FirstPass(taskMap, lapList, totalLaps);
    var p := Expand(taskMap, lapList, totalLaps).playlist;
    var t := FirstPass(taskMap, lapList, lap).tally;
    StartOfLap(taskMap, lapList, totalLaps, lap, id);
    BucketOf(taskMap, lapList, totalLaps, lap);
    ScanLapFilters(taskMap, lap, lapList, t);
    FilteredMembers(taskMap, lap, lapList, t, id);
    SecondPassPlaced(b.buckets, taskMap, b.tally.counts);
    if exists k :: 0 <= k < |p| && p[k].lap == lap && p[k].taskId == id {
      var k :| 0 <= k < |p| && p[k].lap == lap && p[k].taskId == id;
      assert p[k] in p;
      assert b.buckets[lap][p[k].taskIndexInLap - 1] in b.buckets[lap];
    }
    if id in lapList && Fires(taskMap, lap, id, t) {
      var f :| f in b.buckets[lap] && f.taskId == id;
      var j :| 0 <= j < |b.buckets[lap]| && b.buckets[lap][j] == f;
      SecondPassCovers(b.buckets, taskMap, b.tally.counts, lap, j);
    }
  }

  /** runner.js:147: every lap-list task the map knows runs on lap 0. */
  lemma LapZeroRunsAll(taskMap: map<TaskId, Task>, lapList: seq<TaskId>, totalLaps: nat, id: TaskId)
    requires NoDup(lapList) && totalLaps >= 1 && id in lapList && id in taskMap
    ensures var p := Expand(taskMap, lapList, totalLaps).playlist;
            exists k :: 0 <= k < |p| && p[k].lap == 0 && p[k].taskId == id
  {
    StartOfLap(taskMap, lapList, totalLaps, 0, id);
    FiresIff(taskMap, lapList, totalLaps, 0, id);
  }

  /** runner.js:133-204: entries run lap by lap, every lap below `totalLaps`. */
  lemma LapOrder(taskMap: map<TaskId, Task>, lapList: seq<TaskId>, totalLaps: nat)
    ensures var p := Expand(taskMap, lapList, totalLaps).playlist;
      (forall k :: 0 <= k < |p| ==> p[k].lap < totalLaps)
      && (forall i, j :: 0 <= i <= j < |p| ==> p[i].lap <= p[j].lap)
  {
    var b := FirstPass(taskMap, lapList, totalLaps);
    var p := Expand(taskMap, lapList, totalLaps).playlist;
    SecondPassPlaced(b.buckets, taskMap, b.tally.counts);
    forall k | 0 <= k < |p| ensures p[k].lap < totalLaps {
      assert p[k] in p;
    }
  }

  /** A lap's bucket follows the lap list: its ids come from the list, in list order. */
  lemma {:induction false} FilteredOrder(taskMap: map<TaskId, Task>, lap: nat, ids: seq<TaskId>, t: Tally)
    requires NoDup(ids)
    ensures forall i, j :: 0 <= i < j < |Filtered(taskMap, lap, ids, t)| ==>
              IndexOf(ids, Filtered(taskMap, lap, ids, t)[i].taskId) < IndexOf(ids, Filtered(taskMap, lap, ids, t)[j].taskId)
    decreases |ids|
  {
    if |ids| > 0 {
      var front, last := ids[..|ids| - 1], ids[|ids| - 1];
      assert ids == front + [last];
      IndexOfLast(front, last);
      FilteredOrder(taskMap, lap, front, t);
      FilteredIn(taskMap, lap, front, t);
      var q := Filtered(taskMap, lap, front, t);
      var r := Filtered(taskMap, lap, ids, t);
      assert r == q + (if Fires(taskMap, lap, last, t) then [FiredOf(taskMap, last, t)] else []);
      forall i, j | 0 <= i < j < |r| ensures IndexOf(ids, r[i].taskId) < IndexOf(ids, r[j].taskId) {
        assert r[i] == q[i] && q[i].taskId in front;
        if j < |q| { assert r[j] == q[j] && q[j].taskId in front; }
      }
    }
  }

  /** Every firing the filter keeps is of an id in the list. */
  lemma {:induction false} FilteredIn(taskMap: map<TaskId, Task>, lap: nat, ids: seq<TaskId>, t: Tally)
    ensures forall i :: 0 <= i < |Filtered(taskMap, lap, ids, t)| ==> Filtered(taskMap, lap, ids, t)[i].taskId in ids
    decreases |ids|
  {
    if |ids| > 0 {
      var front, last := ids[..|ids| - 1], ids[|ids| - 1];
      FilteredIn(taskMap, lap, front, t);
      var q := Filtered(taskMap, lap, front, t);
      var r := Filtered(taskMap, lap, ids, t);
      assert r == q + (if Fires(taskMap, lap, last, t) then [FiredOf(taskMap, last, t)] else []);
      forall i | 0 <= i < |r| ensures r[i].taskId in ids {
        if i < |q| { assert r[i] == q[i] && q[i].taskId in front; }
      }
    }
  }

  /** In a list without duplicates, the ids before the last keep their positions and the last
      one is at the end. */
  lemma IndexOfLast(front: seq<TaskId>, last: TaskId)
    requires NoDup(front + [last])
    ensures NoDup(front)
    ensures forall x :: x in front ==> IndexOf(front + [last], x) == IndexOf(front, x) < |front|
    ensures IndexOf(front + [last], last) == |front|
  {
    var ids := front + [last];
    forall i, j | 0 <= i < j < |front| ensures front[i] != front[j] {
      assert front[i] == ids[i] && front[j] == ids[j];
    }
    forall x | x in front ensures IndexOf(ids, x) == IndexOf(front, x) < |front| {
      IndexOfPrefix(front, [last], x);
    }
    assert last !in front by {
      forall i | 0 <= i < |front| ensures front[i] != last {
        assert front[i] == ids[i] && ids[|front|] == last;
      }
    }
  }

  lemma IndexOfPrefix(a: seq<TaskId>, b: seq<TaskId>, x: TaskId)
    requires x in a
    ensures IndexOf(a + b, x) == IndexOf(a, x)
  {
    var k := IndexOf(a, x);
    assert (a + b)[k] == x;
    assert (a + b)[..k] == a[..k];
  }

  /** Each lap's bucket holds lap-list ids, in the lap list's order. */
  lemma BucketFromLapList(taskMap: map<TaskId, Task>, lapList: seq<TaskId>, totalLaps: nat, lap: nat)
    requires NoDup(lapList) && lap < totalLaps
    ensures var bucket := FirstPass(taskMap, lapList, totalLaps).buckets[lap];
      (forall i :: 0 <= i < |bucket| ==> bucket[i].taskId in lapList)
      && (forall i, j :: 0 <= i < j < |bucket| ==>
            IndexOf(lapList, bucket[i].taskId) < IndexOf(lapList, bucket[j].taskId))
  {
    var t := FirstPass(taskMap, lapList, lap).tally;
    BucketOf(taskMap, lapList, totalLaps, lap);
    ScanLapFilters(taskMap, lap, lapList, t);
    FilteredIn(taskMap, lap, lapList, t);
    FilteredOrder(taskMap, lap, lapList, t);
  }

  /** An entry placed in the first pass's buckets has a lap-list id. */
  lemma PlacedFromLapList(taskMap: map<TaskId, Task>, lapList: seq<TaskId>, totalLaps: nat, e: Entry)
    requires NoDup(lapList)
    requires var b := FirstPass(taskMap, lapList, totalLaps); Placed(b.buckets, taskMap, b.tally.counts, e)
    ensures e.taskId in lapList
  {
    var bucket := FirstPass(taskMap, lapList, totalLaps).buckets[e.lap];
    BucketFromLapList(taskMap, lapList, totalLaps, e.lap);
    assert bucket[e.taskIndexInLap - 1].taskId == e.taskId;
  }

  /** Two entries placed in one lap's bucket keep the lap list's order. */
  lemma PlacedInLapListOrder(taskMap: map<TaskId, Task>, lapList: seq<TaskId>, totalLaps: nat, d: Entry, e: Entry)
    requires NoDup(lapList)
    requires var b := FirstPass(taskMap, lapList, totalLaps);
      Placed(b.buckets, taskMap, b.tally.counts, d) && Placed(b.buckets, taskMap, b.tally.counts, e)
    requires d.lap == e.lap && d.taskIndexInLap < e.taskIndexInLap
    ensures IndexOf(lapList, d.taskId) < IndexOf(lapList, e.taskId)
  {
    var bucket := FirstPass(taskMap, lapList, totalLaps).buckets[e.lap];
    BucketFromLapList(taskMap, lapList, totalLaps, e.lap);
    assert bucket[d.taskIndexInLap - 1].taskId == d.taskId;
    assert bucket[e.taskIndexInLap - 1].taskId == e.taskId;
  }

  /** runner.js:135, 163: with a duplicate-free lap list, entries come from lap-list ids, and
      within a lap they keep the lap list's order. */
  lemma LapListOrder(taskMap: map<TaskId, Task>, lapList: seq<TaskId>, totalLaps: nat)
    requires NoDup(lapList)
    ensures var p := Expand(taskMap, lapList, totalLaps).playlist;
      (forall k :: 0 <= k < |p| ==> p[k].taskId in lapList)
      && (forall i, j :: 0 <= i < j < |p| && p[i].lap == p[j].lap ==>
            IndexOf(lapList, p[i].taskId) < IndexOf(lapList, p[j].taskId))
  {
    var b := FirstPass(taskMap, lapList, totalLaps);
    var p := Expand(taskMap, lapList, totalLaps).playlist;
    SecondPassPlaced(b.buckets, taskMap, b.tally.counts);
    forall k | 0 <= k < |p| ensures p[k].taskId in lapList {
      assert p[k] in p;
      PlacedFromLapList(taskMap, lapList, totalLaps, p[k]);
    }
    forall i, j | 0 <= i < j < |p| && p[i].lap == p[j].lap
      ensures IndexOf(lapList, p[i].taskId) < IndexOf(lapList, p[j].taskId)
    {
      assert p[i] in p && p[j] in p;
      PlacedInLapListOrder(taskMap, lapList, totalLaps, p[i], p[j]);
    }
  }

  /** A placed entry is the annotation of its bucket position. */
  lemma PlacedEntry(bs: seq<seq<Fired>>, taskMap: map<TaskId, Task>, counts: map<TaskId, nat>, e: Entry)
    requires Placed(bs, taskMap, counts, e)
    ensures e == Annotate(bs[e.lap], e.lap, taskMap, counts)[e.taskIndexInLap - 1]
  {
    var f := bs[e.lap][e.taskIndexInLap - 1];
    assert Strip(e) == f;
  }

  /** runner.js:184-198: `taskIndexInLap` is an entry's 1-based position among the entries of its
      lap, and `totalTasksInLap` their number. */
  lemma LapPositions(taskMap: map<TaskId, Task>, lapList: seq<TaskId>, totalLaps: nat)
    ensures var p := Expand(taskMap, lapList, totalLaps).playlist;
      forall k :: 0 <= k < |p| ==>
        1 <= p[k].taskIndexInLap <= p[k].totalTasksInLap == |LapEntries(p, p[k].lap)|
        && LapEntries(p, p[k].lap)[p[k].taskIndexInLap - 1] == p[k]
  {
    var b := FirstPass(taskMap, lapList, totalLaps);
    var p := Expand(taskMap, lapList, totalLaps).playlist;
    SecondPassPlaced(b.buckets, taskMap, b.tally.counts);
    forall k | 0 <= k < |p|
      ensures 1 <= p[k].taskIndexInLap <= p[k].totalTasksInLap == |LapEntries(p, p[k].lap)|
      ensures LapEntries(p, p[k].lap)[p[k].taskIndexInLap - 1] == p[k]
    {
      assert p[k] in p;
      LapEntriesOfSecondPass(b.buckets, taskMap, b.tally.counts, p[k].lap);
      PlacedEntry(b.buckets, taskMap, b.tally.counts, p[k]);
    }
  }

  /** runner.js:124-134, 172-211: the offsets and totals are the sums they are named after. */
  lemma PrefixSums(taskMap: map<TaskId, Task>, lapList: seq<TaskId>, totalLaps: nat)
    ensures var r := Expand(taskMap, lapList, totalLaps);
      |r.cumulativeSessionDurations| == |r.playlist|
      && (forall i :: 0 <= i < |r.playlist| ==> r.cumulativeSessionDurations[i] == SumEntries(r.playlist[..i]))
      && r.totalSessionDuration == SumEntries(r.playlist)
      && |r.lapDurations| == totalLaps && |r.lapStartCumulativeDurations| == totalLaps
      && (forall lap :: 0 <= lap < totalLaps ==> r.lapDurations[lap] == SumEntries(LapEntries(r.playlist, lap)))
      && (forall lap :: 0 <= lap < totalLaps ==>
            r.lapStartCumulativeDurations[lap] == SumEntries(EarlierEntries(r.playlist, lap)))
  {
    var b := FirstPass(taskMap, lapList, totalLaps);
    var c := b.tally.counts;
    var r := Expand(taskMap, lapList, totalLaps);
    CumulativeIsPrefixSum(r.playlist);
    LapDurationsAt(b.buckets);
    forall lap | 0 <= lap < totalLaps
      ensures r.lapDurations[lap] == SumEntries(LapEntries(r.playlist, lap))
      ensures r.lapStartCumulativeDurations[lap] == SumEntries(EarlierEntries(r.playlist, lap))
    {
      LapEntriesOfSecondPass(b.buckets, taskMap, c, lap);
      var a := Annotate(b.buckets[lap], lap, taskMap, c);
      SumAnnotate(b.buckets[lap], lap, taskMap, c, |b.buckets[lap]|);
      assert a[..|a|] == a && b.buckets[lap][..|b.buckets[lap]|] == b.buckets[lap];
      EarlierEntriesOfSecondPass(b.buckets, taskMap, c, lap);
      SumSecondPass(b.buckets[..lap], taskMap, c);
    }
  }

  /** runner.js:172-174, 212-213: `activeLapMap` numbers exactly the laps that have entries, 1 .. totalActiveLaps
      in lap order, each number used once. */
  lemma ActiveLapNumbers(taskMap: map<TaskId, Task>, lapList: seq<TaskId>, totalLaps: nat)
    ensures var r := Expand(taskMap, lapList, totalLaps);
      (forall lap: nat :: lap in r.activeLapMap <==> lap < totalLaps && |LapEntries(r.playlist, lap)| > 0)
      && (forall lap :: lap in r.activeLapMap ==> 1 <= r.activeLapMap[lap] <= r.totalActiveLaps)
      && (forall l1, l2 :: l1 in r.activeLapMap && l2 in r.activeLapMap && l1 < l2 ==> r.activeLapMap[l1] < r.activeLapMap[l2])
      && (forall n: nat :: 1 <= n <= r.totalActiveLaps ==> Numbered(r.activeLapMap, n))
  {
    var b := FirstPass(taskMap, lapList, totalLaps);
    ActiveLapsNumbering(b.buckets);
    forall lap: nat | lap < totalLaps
      ensures |LapEntries(Expand(taskMap, lapList, totalLaps).playlist, lap)| == |b.buckets[lap]|
    {
      LapEntriesOfSecondPass(b.buckets, taskMap, b.tally.counts, lap);
    }
  }

  /** Every task in the map has a non-negative base duration, as the task form guarantees. */
  ghost predicate NonNegativeDurations(taskMap: map<TaskId, Task>) {
    forall id :: id in taskMap ==> taskMap[id].duration >= 0
  }

  ghost predicate NonNegativeBuckets(bs: seq<seq<Fired>>) {
    forall lap, j :: 0 <= lap < |bs| && 0 <= j < |bs[lap]| ==> bs[lap][j].calculatedDuration >= 0
  }

  lemma BucketsNonNegative(taskMap: map<TaskId, Task>, lapList: seq<TaskId>, totalLaps: nat)
    requires NonNegativeDurations(taskMap)
    ensures NonNegativeBuckets(FirstPass(taskMap, lapList, totalLaps).buckets)
    ensures forall e :: e in Expand(taskMap, lapList, totalLaps).playlist ==> e.calculatedDuration >= 0
  {
    var b := FirstPass(taskMap, lapList, totalLaps);
    var p := Expand(taskMap, lapList, totalLaps).playlist;
    EntryDurations(taskMap, lapList, totalLaps);
    forall lap, j | 0 <= lap < |b.buckets| && 0 <= j < |b.buckets[lap]|
      ensures b.buckets[lap][j].calculatedDuration >= 0
    {
      SecondPassCovers(b.buckets, taskMap, b.tally.counts, lap, j);
    }
  }

  lemma {:induction false} SumFiredPrefix(b: seq<Fired>, m: nat)
    requires m <= |b| && forall j :: 0 <= j < |b| ==> b[j].calculatedDuration >= 0
    ensures 0 <= SumFired(b[..m]) <= SumFired(b)
    decreases |b|
  {
    if |b| > 0 {
      var front := b[..|b| - 1];
      if m < |b| {
        SumFiredPrefix(front, m);
        assert front[..m] == b[..m];
      } else {
        SumFiredPrefix(front, m - 1);
        assert b[..m] == b;
      }
    }
  }

  lemma {:induction false} SumBucketsPrefix(bs: seq<seq<Fired>>, m: nat)
    requires m <= |bs| && NonNegativeBuckets(bs)
    ensures 0 <= SumBuckets(bs[..m]) <= SumBuckets(bs)
    decreases |bs|
  {
    if |bs| > 0 {
      var front := bs[..|bs| - 1];
      assert forall lap :: 0 <= lap < |front| ==> front[lap] == bs[lap];
      SumFiredPrefix(bs[|bs| - 1], 0);
      if m < |bs| {
        SumBucketsPrefix(front, m);
        assert front[..m] == bs[..m];
      } else {
        SumBucketsPrefix(front, m - 1);
        assert bs[..m] == bs;
      }
    }
  }

  /** The span of position `j` of lap `lap`'s bucket lies inside the lap, and the lap inside the session. */
  lemma BucketSpan(bs: seq<seq<Fired>>, lap: nat, j: nat)
    requires NonNegativeBuckets(bs) && lap < |bs| && j < |bs[lap]|
    ensures 0 <= SumFired(bs[lap][..j])
    ensures SumFired(bs[lap][..j]) + bs[lap][j].calculatedDuration <= SumFired(bs[lap])
    ensures SumBuckets(bs[..lap]) + SumFired(bs[lap]) <= SumBuckets(bs)
  {
    var bucket := bs[lap];
    assert bucket[..j + 1][..j] == bucket[..j];
    SumFiredPrefix(bucket, j);
    SumFiredPrefix(bucket, j + 1);
    SumBucketsPrefix(bs, lap + 1);
    assert bs[..lap + 1][..lap] == bs[..lap];
  }

  /** An entry's span within its lap and within the session, on the buckets. */
  lemma EntrySpan(bs: seq<seq<Fired>>, taskMap: map<TaskId, Task>, counts: map<TaskId, nat>, k: nat)
    requires NonNegativeBuckets(bs) && k < |SecondPass(bs, taskMap, counts)|
    ensures var p := SecondPass(bs, taskMap, counts);
            var e := p[k];
            e.lap < |bs| && 0 <= e.calculatedDuration
            && SumBuckets(bs[..e.lap]) <= Cumulative(p)[k]
            && Cumulative(p)[k] + e.calculatedDuration <= SumBuckets(bs[..e.lap]) + SumFired(bs[e.lap])
            && Cumulative(p)[k] + e.calculatedDuration <= SumEntries(p)
  {
    var e := SecondPass(bs, taskMap, counts)[k];
    CumulativeAt(bs, taskMap, counts, k);
    BucketSpan(bs, e.lap, e.taskIndexInLap - 1);
    SumSecondPass(bs, taskMap, counts);
  }

  /** With non-negative task durations, each entry's time span lies inside its lap's
      span (`lapStartCumulativeDurations`, `lapDurations`) and inside the session. */
  lemma EntryWithinLap(taskMap: map<TaskId, Task>, lapList: seq<TaskId>, totalLaps: nat, k: nat)
    requires NonNegativeDurations(taskMap)
    requires k < |Expand(taskMap, lapList, totalLaps).playlist|
    ensures var r := Expand(taskMap, lapList, totalLaps);
            var e := r.playlist[k];
            e.lap < |r.lapDurations| == |r.lapStartCumulativeDurations|
            && 0 <= e.calculatedDuration
            && r.lapStartCumulativeDurations[e.lap] <= r.cumulativeSessionDurations[k]
            && r.cumulativeSessionDurations[k] + e.calculatedDuration
               <= r.lapStartCumulativeDurations[e.lap] + r.lapDurations[e.lap]
            && r.cumulativeSessionDurations[k] + e.calculatedDuration <= r.totalSessionDuration
  {
    var b := FirstPass(taskMap, lapList, totalLaps);
    BucketsNonNegative(taskMap, lapList, totalLaps);
    EntrySpan(b.buckets, taskMap, b.tally.counts, k);
    LapDurationsAt(b.buckets);
  }

  /** With non-negative task durations, `cumulativeSessionDurations` is non-decreasing. */
  lemma CumulativeNonDecreasing(taskMap: map<TaskId, Task>, lapList: seq<TaskId>, totalLaps: nat)
    requires NonNegativeDurations(taskMap)
    ensures var r := Expand(taskMap, lapList, totalLaps);
      forall i, j :: 0 <= i <= j < |r.cumulativeSessionDurations| ==>
        r.cumulativeSessionDurations[i] <= r.cumulativeSessionDurations[j]
  {
    var r := Expand(taskMap, lapList, totalLaps);
    var p := r.playlist;
    BucketsNonNegative(taskMap, lapList, totalLaps);
    CumulativeIsPrefixSum(p);
    forall i, j | 0 <= i <= j < |p| ensures SumEntries(p[..i]) <= SumEntries(p[..j]) {
      assert p[..j] == p[..i] + p[i..j];
      SumEntriesConcat(p[..i], p[i..j]);
      SumNonNegative(p[i..j]);
    }
  }

  lemma {:induction false} SumNonNegative(q: seq<Entry>)
    requires forall e :: e in q ==> e.calculatedDuration >= 0
    ensures SumEntries(q) >= 0
    decreases |q|
  {
    if |q| > 0 {
      SumNonNegative(q[..|q| - 1]);
    }
  }
}
