/** What the first pass of the playlist expansion keeps track of.

    The firings of the first pass, each paired with its lap, form a log. The two
    Maps of the first pass summarise that log: `totalTaskOccurrencesMap[id]` is the
    number of firings of `id` in it, and `lastRunLap[id]` the lap of its most recent
    one. The lemmas here prove that every decision respects the cap, the recurrence
    rule and the duration rule. They also prove that a lap's bucket is exactly the
    lap list, filtered by the decision made on the counts at the start of that lap. */
module PlaylistLog {
  import opened Tasks
  import opened Playlist
  import Duration
  import opened Seqs

  /** A firing together with the lap it happened on. */
  datatype Firing = Firing(fired: Fired, lap: nat)

  /** The firings of one bucket, tagged with its lap. */
  function Tags(b: seq<Fired>, lap: nat): (r: seq<Firing>)
    ensures |r| == |b|
    ensures forall k :: 0 <= k < |b| ==> r[k] == Firing(b[k], lap)
  {
    seq(|b|, k requires 0 <= k < |b| => Firing(b[k], lap))
  }

  /** The firings of all buckets, lap by lap. */
  function Log(bs: seq<seq<Fired>>): seq<Firing>
    decreases |bs|
  {
    if |bs| == 0 then [] else Log(bs[..|bs| - 1]) + Tags(bs[|bs| - 1], |bs| - 1)
  }

  /** How many firings of `id` the log holds. */
  function CountF(h: seq<Firing>, id: TaskId): nat
    decreases |h|
  {
    if |h| == 0 then 0 else CountF(h[..|h| - 1], id) + (if h[|h| - 1].fired.taskId == id then 1 else 0)
  }

  /** The lap of the latest firing of `id` in the log, or -1. */
  function LastLapF(h: seq<Firing>, id: TaskId): int
    decreases |h|
  {
    if |h| == 0 then -1
    else if h[|h| - 1].fired.taskId == id then h[|h| - 1].lap
    else LastLapF(h[..|h| - 1], id)
  }

  /** A firing of a known task, with the base and calculated durations of its occurrence. */
  predicate GoodFiring(taskMap: map<TaskId, Task>, x: Firing) {
    var f := x.fired;
    f.taskId in taskMap && f.occurrences >= 1
    && f.baseDuration == taskMap[f.taskId].duration
    && f.calculatedDuration == Duration.Calculated(taskMap[f.taskId].duration, taskMap[f.taskId].growthFactor, f.occurrences)
  }

  /** The k-th firing was due: on lap 0, or a multiple of the interval after the task's previous firing. */
  predicate OnSchedule(taskMap: map<TaskId, Task>, h: seq<Firing>, k: nat)
    requires k < |h| && h[k].fired.taskId in taskMap
  {
    Due(taskMap[h[k].fired.taskId], h[k].lap, LastLapF(h[..k], h[k].fired.taskId))
  }

  /** The invariant of the first pass: the Maps summarise the log, and every firing in
      the log is well formed, correctly numbered, due, within the cap and before `bound`. */
  ghost predicate Hist(taskMap: map<TaskId, Task>, h: seq<Firing>, t: Tally, bound: nat) {
    (forall id :: Occ(t.counts, id) == CountF(h, id))
    && (forall id :: LastRun(t.lastRun, id) == LastLapF(h, id))
    && (forall k :: 0 <= k < |h| ==> GoodFiring(taskMap, h[k]) && OnSchedule(taskMap, h, k))
    && (forall k :: 0 <= k < |h| ==> h[k].fired.occurrences == CountF(h[..k + 1], h[k].fired.taskId))
    && (forall k :: 0 <= k < |h| ==> h[k].lap < bound)
    && (forall id :: id in taskMap && taskMap[id].maxOccurrences > 0 ==> CountF(h, id) <= taskMap[id].maxOccurrences)
  }

  lemma AppendFiring(h: seq<Firing>, x: Firing)
    ensures forall id :: CountF(h + [x], id) == CountF(h, id) + (if x.fired.taskId == id then 1 else 0)
    ensures forall id :: LastLapF(h + [x], id) == if x.fired.taskId == id then x.lap else LastLapF(h, id)
    ensures forall k :: 0 <= k <= |h| ==> (h + [x])[..k] == h[..k]
  {
    assert (h + [x])[..|h|] == h;
  }

  lemma TagsAppend(b: seq<Fired>, f: Fired, lap: nat)
    ensures Tags(b + [f], lap) == Tags(b, lap) + [Firing(f, lap)]
  {
  }

  lemma LogAppend(bs: seq<seq<Fired>>, b: seq<Fired>)
    ensures Log(bs + [b]) == Log(bs) + Tags(b, |bs|)
  {
    assert (bs + [b])[..|bs|] == bs;
  }

  /** Appending a firing that is well formed, due, numbered one past the task's count
      and within the cap keeps the invariant, once the Maps record it. */
  lemma HistAppend(taskMap: map<TaskId, Task>, h: seq<Firing>, t: Tally, x: Firing, bound: nat)
    requires Hist(taskMap, h, t, bound)
    requires GoodFiring(taskMap, x) && x.lap < bound
    requires Due(taskMap[x.fired.taskId], x.lap, LastLapF(h, x.fired.taskId))
    requires x.fired.occurrences == CountF(h, x.fired.taskId) + 1
    requires taskMap[x.fired.taskId].maxOccurrences > 0 ==> x.fired.occurrences <= taskMap[x.fired.taskId].maxOccurrences
    ensures Hist(taskMap, h + [x],
                 Tally(t.lastRun[x.fired.taskId := x.lap], t.counts[x.fired.taskId := x.fired.occurrences]), bound)
  {
    AppendTally(h, t, x);
    AppendCapped(taskMap, h, x);
    AppendScheduled(taskMap, h, x);
    AppendNumbered(h, x);
    forall k | 0 <= k < |h + [x]| ensures (h + [x])[k].lap < bound {
      if k < |h| { assert (h + [x])[k] == h[k]; }
    }
  }

  /** The Maps, updated with `x`, summarise `h + [x]` when they summarised `h`. */
  lemma AppendTally(h: seq<Firing>, t: Tally, x: Firing)
    requires forall id :: Occ(t.counts, id) == CountF(h, id)
    requires forall id :: LastRun(t.lastRun, id) == LastLapF(h, id)
    requires x.fired.occurrences == CountF(h, x.fired.taskId) + 1
    ensures forall id :: Occ(t.counts[x.fired.taskId := x.fired.occurrences], id) == CountF(h + [x], id)
    ensures forall id :: LastRun(t.lastRun[x.fired.taskId := x.lap], id) == LastLapF(h + [x], id)
  {
    AppendFiring(h, x);
  }

  /** Appending a firing numbered within its task's cap keeps every count within its cap. */
  lemma AppendCapped(taskMap: map<TaskId, Task>, h: seq<Firing>, x: Firing)
    requires forall id :: id in taskMap && taskMap[id].maxOccurrences > 0 ==> CountF(h, id) <= taskMap[id].maxOccurrences
    requires x.fired.taskId in taskMap && x.fired.occurrences == CountF(h, x.fired.taskId) + 1
    requires taskMap[x.fired.taskId].maxOccurrences > 0 ==> x.fired.occurrences <= taskMap[x.fired.taskId].maxOccurrences
    ensures forall id :: id in taskMap && taskMap[id].maxOccurrences > 0 ==> CountF(h + [x], id) <= taskMap[id].maxOccurrences
  {
    AppendFiring(h, x);
  }

  /** Every firing of `h + [x]` is well formed and due, when those of `h` are and `x` is. */
  lemma AppendScheduled(taskMap: map<TaskId, Task>, h: seq<Firing>, x: Firing)
    requires forall k :: 0 <= k < |h| ==> GoodFiring(taskMap, h[k]) && OnSchedule(taskMap, h, k)
    requires GoodFiring(taskMap, x) && Due(taskMap[x.fired.taskId], x.lap, LastLapF(h, x.fired.taskId))
    ensures forall k :: 0 <= k < |h + [x]| ==> GoodFiring(taskMap, (h + [x])[k]) && OnSchedule(taskMap, h + [x], k)
  {
    var h' := h + [x];
    forall k | 0 <= k < |h'|
      ensures GoodFiring(taskMap, h'[k]) && OnSchedule(taskMap, h', k)
    {
      if k < |h| {
        assert h'[k] == h[k] && h'[..k] == h[..k];
      } else {
        assert h'[k] == x && h'[..k] == h;
      }
    }
  }

  /** Every firing of `h + [x]` carries its own occurrence number, when those of `h` do and
      `x` is numbered one past its task's count in `h`. */
  lemma AppendNumbered(h: seq<Firing>, x: Firing)
    requires forall k :: 0 <= k < |h| ==> h[k].fired.occurrences == CountF(h[..k + 1], h[k].fired.taskId)
    requires x.fired.occurrences == CountF(h, x.fired.taskId) + 1
    ensures forall k :: 0 <= k < |h + [x]| ==>
              (h + [x])[k].fired.occurrences == CountF((h + [x])[..k + 1], (h + [x])[k].fired.taskId)
  {
    var h' := h + [x];
    forall k | 0 <= k < |h'|
      ensures h'[k].fired.occurrences == CountF(h'[..k + 1], h'[k].fired.taskId)
    {
      if k < |h| {
        assert h'[k] == h[k] && h'[..k + 1] == h[..k + 1];
      } else {
        assert h'[k] == x && h'[..k + 1] == h';
      }
    }
  }

  /** One decision of the lap-list loop keeps the invariant. */
  lemma VisitKeeps(taskMap: map<TaskId, Task>, lap: nat, id: TaskId, s: LapScan, prior: seq<Firing>)
    requires Hist(taskMap, prior + Tags(s.bucket, lap), s.tally, lap + 1)
    ensures Hist(taskMap, prior + Tags(Visit(taskMap, lap, id, s).bucket, lap), Visit(taskMap, lap, id, s).tally, lap + 1)
  {
    var s' := Visit(taskMap, lap, id, s);
    if id in taskMap && !Capped(taskMap[id], Occ(s.tally.counts, id))
       && Due(taskMap[id], lap, LastRun(s.tally.lastRun, id)) {
      var h := prior + Tags(s.bucket, lap);
      var t := taskMap[id];
      var n := Occ(s.tally.counts, id) + 1;
      var f := Fired(id, Duration.Calculated(t.duration, t.growthFactor, n), t.duration, n);
      var x := Firing(f, lap);
      assert s'.bucket == s.bucket + [f];
      TagsAppend(s.bucket, f, lap);
      assert prior + Tags(s'.bucket, lap) == h + [x];
      HistAppend(taskMap, h, s.tally, x, lap + 1);
    }
  }

  /** The lap-list loop of one lap keeps the invariant. */
  lemma {:induction false} ScanLapKeeps(taskMap: map<TaskId, Task>, lap: nat, ids: seq<TaskId>, s: LapScan, prior: seq<Firing>)
    requires Hist(taskMap, prior + Tags(s.bucket, lap), s.tally, lap + 1)
    ensures Hist(taskMap, prior + Tags(ScanLap(taskMap, lap, ids, s).bucket, lap), ScanLap(taskMap, lap, ids, s).tally, lap + 1)
    decreases |ids|
  {
    if |ids| > 0 {
      ScanLapKeeps(taskMap, lap, ids[..|ids| - 1], s, prior);
      VisitKeeps(taskMap, lap, ids[|ids| - 1], ScanLap(taskMap, lap, ids[..|ids| - 1], s), prior);
    }
  }

  /** After any number of laps, the Maps of the first pass summarise its log, and
      the log obeys the cap, the numbering, the duration rule and the recurrence rule. */
  lemma {:induction false} FirstPassHist(taskMap: map<TaskId, Task>, lapList: seq<TaskId>, laps: nat)
    ensures Hist(taskMap, Log(FirstPass(taskMap, lapList, laps).buckets), FirstPass(taskMap, lapList, laps).tally, laps)
    decreases laps
  {
    if laps > 0 {
      FirstPassHist(taskMap, lapList, laps - 1);
      LapKeeps(taskMap, lapList, laps - 1);
    }
  }

  /** One more lap of the first pass keeps the invariant. */
  lemma LapKeeps(taskMap: map<TaskId, Task>, lapList: seq<TaskId>, lap: nat)
    requires Hist(taskMap, Log(FirstPass(taskMap, lapList, lap).buckets), FirstPass(taskMap, lapList, lap).tally, lap)
    ensures Hist(taskMap, Log(FirstPass(taskMap, lapList, lap + 1).buckets), FirstPass(taskMap, lapList, lap + 1).tally, lap + 1)
  {
    var p := FirstPass(taskMap, lapList, lap);
    var h := Log(p.buckets);
    HistWiden(taskMap, h, p.tally, lap);
    assert h + Tags([], lap) == h;
    ScanLapKeeps(taskMap, lap, lapList, LapScan([], p.tally), h);
    var sc := ScanLap(taskMap, lap, lapList, LapScan([], p.tally));
    LogAppend(p.buckets, sc.bucket);
  }

  /** The invariant for one bound holds for the next. */
  lemma HistWiden(taskMap: map<TaskId, Task>, h: seq<Firing>, t: Tally, bound: nat)
    requires Hist(taskMap, h, t, bound)
    ensures Hist(taskMap, h, t, bound + 1)
  {
  }

  /** The decision of runner.js:136-147 for `id` on lap `lap`, made on the Maps `t`. */
  predicate Fires(taskMap: map<TaskId, Task>, lap: nat, id: TaskId, t: Tally) {
    id in taskMap && !Capped(taskMap[id], Occ(t.counts, id)) && Due(taskMap[id], lap, LastRun(t.lastRun, id))
  }

  /** The firing that decision produces. */
  function FiredOf(taskMap: map<TaskId, Task>, id: TaskId, t: Tally): (f: Fired)
    requires id in taskMap
    ensures f.taskId == id && f.occurrences == Occ(t.counts, id) + 1
  {
    var n := Occ(t.counts, id) + 1;
    Fired(id, Duration.Calculated(taskMap[id].duration, taskMap[id].growthFactor, n), taskMap[id].duration, n)
  }

  /** A reference definition of a lap's bucket: the ids of `ids`, in order, whose
      decision on the start-of-lap Maps `t` is to fire. */
  function Filtered(taskMap: map<TaskId, Task>, lap: nat, ids: seq<TaskId>, t: Tally): seq<Fired>
    decreases |ids|
  {
    if |ids| == 0 then []
    else
      var id := ids[|ids| - 1];
      Filtered(taskMap, lap, ids[..|ids| - 1], t) + (if Fires(taskMap, lap, id, t) then [FiredOf(taskMap, id, t)] else [])
  }

  /** Both Maps of `a` and `b` agree on `id`. */
  predicate Agree(a: Tally, b: Tally, id: TaskId) {
    Occ(a.counts, id) == Occ(b.counts, id) && LastRun(a.lastRun, id) == LastRun(b.lastRun, id)
  }

  /** With a duplicate-free lap list, each id is decided once per lap, on the Maps as
      they stood when the lap began: the bucket is the filtered lap list. */
  lemma {:induction false} ScanLapFilters(taskMap: map<TaskId, Task>, lap: nat, ids: seq<TaskId>, t: Tally)
    requires NoDup(ids)
    ensures ScanLap(taskMap, lap, ids, LapScan([], t)).bucket == Filtered(taskMap, lap, ids, t)
    ensures forall id :: id !in ids ==> Agree(ScanLap(taskMap, lap, ids, LapScan([], t)).tally, t, id)
    decreases |ids|
  {
    if |ids| > 0 {
      var front, id := ids[..|ids| - 1], ids[|ids| - 1];
      assert NoDup(front) by {
        forall i, j | 0 <= i < j < |front| ensures front[i] != front[j] {
          assert front[i] == ids[i] && front[j] == ids[j];
        }
      }
      ScanLapFilters(taskMap, lap, front, t);
      assert id !in front by {
        forall i | 0 <= i < |front| ensures front[i] != id {
          assert front[i] == ids[i];
        }
      }
      var s := ScanLap(taskMap, lap, front, LapScan([], t));
      assert Agree(s.tally, t, id);
      forall y | y !in ids ensures Agree(ScanLap(taskMap, lap, ids, LapScan([], t)).tally, t, y) {
        assert y !in front && y != id;
      }
    }
  }

  /** Lap 0 fires every lap-list id the map knows, in lap-list order. */
  lemma {:induction false} FilteredLapZero(taskMap: map<TaskId, Task>, ids: seq<TaskId>)
    ensures forall id :: id in ids && id in taskMap ==> exists f :: f in Filtered(taskMap, 0, ids, Empty) && f.taskId == id
    decreases |ids|
  {
    if |ids| > 0 {
      var front, last := ids[..|ids| - 1], ids[|ids| - 1];
      FilteredLapZero(taskMap, front);
      var r := Filtered(taskMap, 0, ids, Empty);
      assert Filtered(taskMap, 0, front, Empty) <= r;
      forall id | id in ids && id in taskMap
        ensures exists f :: f in r && f.taskId == id
      {
        if id == last {
          assert Fires(taskMap, 0, id, Empty);
          assert FiredOf(taskMap, id, Empty) in r;
        } else {
          assert id in front by {
            var i :| 0 <= i < |ids| && ids[i] == id;
            assert i < |front| && front[i] == id;
          }
          var f :| f in Filtered(taskMap, 0, front, Empty) && f.taskId == id;
          assert f in r;
        }
      }
    }
  }
}
