/** The shape of the second pass of the playlist expansion: where each bucket's entries
    land in the flat playlist, what the running sums add up, and how the non-empty
    laps are numbered. */
module PlaylistShape {
  import opened Tasks
  import opened Playlist
  import opened PlaylistLog

  /** The firing an entry was made from. */
  function Strip(e: Entry): Fired {
    Fired(e.taskId, e.calculatedDuration, e.baseDuration, e.occurrences)
  }

  /** The playlist seen as a log of firings. */
  function Firings(p: seq<Entry>): (h: seq<Firing>)
    ensures |h| == |p|
    ensures forall k :: 0 <= k < |p| ==> h[k] == Firing(Strip(p[k]), p[k].lap)
  {
    seq(|p|, k requires 0 <= k < |p| => Firing(Strip(p[k]), p[k].lap))
  }

  /** The entries of lap `lap`, in playlist order. */
  function LapEntries(p: seq<Entry>, lap: nat): seq<Entry>
    decreases |p|
  {
    if |p| == 0 then []
    else LapEntries(p[..|p| - 1], lap) + (if p[|p| - 1].lap == lap then [p[|p| - 1]] else [])
  }

  /** The entries of the laps before `lap`, in playlist order. */
  function EarlierEntries(p: seq<Entry>, lap: nat): seq<Entry>
    decreases |p|
  {
    if |p| == 0 then []
    else EarlierEntries(p[..|p| - 1], lap) + (if p[|p| - 1].lap < lap then [p[|p| - 1]] else [])
  }

  lemma FiringsConcat(a: seq<Entry>, b: seq<Entry>)
    ensures Firings(a + b) == Firings(a) + Firings(b)
  {
  }

  lemma FiringsPrefix(p: seq<Entry>, k: nat)
    requires k <= |p|
    ensures Firings(p[..k]) == Firings(p)[..k]
  {
  }

  /** The second pass loses nothing of the first: read back as firings, the playlist is the log. */
  lemma {:induction false} FiringsOfSecondPass(bs: seq<seq<Fired>>, taskMap: map<TaskId, Task>, counts: map<TaskId, nat>)
    ensures Firings(SecondPass(bs, taskMap, counts)) == Log(bs)
    decreases |bs|
  {
    if |bs| > 0 {
      var front, last := bs[..|bs| - 1], bs[|bs| - 1];
      FiringsOfSecondPass(front, taskMap, counts);
      FiringsConcat(SecondPass(front, taskMap, counts), Annotate(last, |bs| - 1, taskMap, counts));
      assert Firings(Annotate(last, |bs| - 1, taskMap, counts)) == Tags(last, |bs| - 1);
    }
  }

  /** Where an entry comes from: lap `lap`'s bucket, at position `taskIndexInLap - 1`. */
  ghost predicate Placed(bs: seq<seq<Fired>>, taskMap: map<TaskId, Task>, counts: map<TaskId, nat>, e: Entry) {
    e.lap < |bs| && 1 <= e.taskIndexInLap <= e.totalTasksInLap == |bs[e.lap]|
    && Strip(e) == bs[e.lap][e.taskIndexInLap - 1]
    && e.totalOccurrences == TotalOccurrences(taskMap, counts, e.taskId)
  }

  /** Entries are ordered by lap, and within a lap by their position in its bucket. */
  ghost predicate InOrder(p: seq<Entry>) {
    forall i, j :: 0 <= i < j < |p| ==>
      p[i].lap < p[j].lap || (p[i].lap == p[j].lap && p[i].taskIndexInLap < p[j].taskIndexInLap)
  }

  lemma {:induction false} SecondPassPlaced(bs: seq<seq<Fired>>, taskMap: map<TaskId, Task>, counts: map<TaskId, nat>)
    ensures forall e :: e in SecondPass(bs, taskMap, counts) ==> Placed(bs, taskMap, counts, e)
    ensures InOrder(SecondPass(bs, taskMap, counts))
    decreases |bs|
  {
    if |bs| > 0 {
      var front, last, m := bs[..|bs| - 1], bs[|bs| - 1], |bs| - 1;
      SecondPassPlaced(front, taskMap, counts);
      var q := SecondPass(front, taskMap, counts);
      var a := Annotate(last, m, taskMap, counts);
      var p := q + a;
      forall e | e in p ensures Placed(bs, taskMap, counts, e) {
        if e in q {
          assert Placed(front, taskMap, counts, e);
          assert bs[e.lap] == front[e.lap];
        } else {
          var k :| 0 <= k < |a| && a[k] == e;
        }
      }
      forall i, j | 0 <= i < j < |p|
        ensures p[i].lap < p[j].lap || (p[i].lap == p[j].lap && p[i].taskIndexInLap < p[j].taskIndexInLap)
      {
        if j < |q| {
          assert p[i] == q[i] && p[j] == q[j];
        } else if i < |q| {
          assert p[i] == q[i] && q[i] in q;
          assert Placed(front, taskMap, counts, q[i]);
        }
      }
    }
  }

  /** Every bucket position has its entry. */
  lemma {:induction false} SecondPassCovers(bs: seq<seq<Fired>>, taskMap: map<TaskId, Task>, counts: map<TaskId, nat>, lap: nat, j: nat)
    requires lap < |bs| && j < |bs[lap]|
    ensures exists k :: 0 <= k < |SecondPass(bs, taskMap, counts)|
              && SecondPass(bs, taskMap, counts)[k].lap == lap
              && Strip(SecondPass(bs, taskMap, counts)[k]) == bs[lap][j]
    decreases |bs|
  {
    var front, last, m := bs[..|bs| - 1], bs[|bs| - 1], |bs| - 1;
    var q := SecondPass(front, taskMap, counts);
    var p := SecondPass(bs, taskMap, counts);
    if lap == m {
      assert p[|q| + j] == Annotate(last, m, taskMap, counts)[j];
    } else {
      SecondPassCovers(front, taskMap, counts, lap, j);
      var k :| 0 <= k < |q| && q[k].lap == lap && Strip(q[k]) == front[lap][j];
      assert p[k] == q[k];
    }
  }

  lemma LapEntriesConcat(a: seq<Entry>, b: seq<Entry>, lap: nat)
    ensures LapEntries(a + b, lap) == LapEntries(a, lap) + LapEntries(b, lap)
    decreases |b|
  {
    if |b| > 0 {
      assert (a + b)[..|a + b| - 1] == a + b[..|b| - 1];
      LapEntriesConcat(a, b[..|b| - 1], lap);
    } else {
      assert a + b == a;
    }
  }

  lemma EarlierEntriesConcat(a: seq<Entry>, b: seq<Entry>, lap: nat)
    ensures EarlierEntries(a + b, lap) == EarlierEntries(a, lap) + EarlierEntries(b, lap)
    decreases |b|
  {
    if |b| > 0 {
      assert (a + b)[..|a + b| - 1] == a + b[..|b| - 1];
      EarlierEntriesConcat(a, b[..|b| - 1], lap);
    } else {
      assert a + b == a;
    }
  }

  /** All entries of a sequence on the same lap `m`: they are all of lap `m`'s entries. */
  lemma {:induction false} OneLap(p: seq<Entry>, m: nat, lap: nat)
    requires forall k :: 0 <= k < |p| ==> p[k].lap == m
    ensures LapEntries(p, lap) == if lap == m then p else []
    decreases |p|
  {
    if |p| > 0 {
      OneLap(p[..|p| - 1], m, lap);
      assert p[..|p| - 1] + [p[|p| - 1]] == p;
    }
  }

  /** All entries of a sequence on the same lap `m`: they are all before `lap` or none is. */
  lemma {:induction false} OneLapEarlier(p: seq<Entry>, m: nat, lap: nat)
    requires forall k :: 0 <= k < |p| ==> p[k].lap == m
    ensures EarlierEntries(p, lap) == if m < lap then p else []
    decreases |p|
  {
    if |p| > 0 {
      OneLapEarlier(p[..|p| - 1], m, lap);
      assert p[..|p| - 1] + [p[|p| - 1]] == p;
    }
  }

  /** The entries of lap `lap` are exactly that lap's bucket, annotated. */
  lemma {:induction false} LapEntriesOfSecondPass(bs: seq<seq<Fired>>, taskMap: map<TaskId, Task>, counts: map<TaskId, nat>, lap: nat)
    requires lap < |bs|
    ensures LapEntries(SecondPass(bs, taskMap, counts), lap) == Annotate(bs[lap], lap, taskMap, counts)
    decreases |bs|
  {
    var front, last, m := bs[..|bs| - 1], bs[|bs| - 1], |bs| - 1;
    var q := SecondPass(front, taskMap, counts);
    var a := Annotate(last, m, taskMap, counts);
    assert SecondPass(bs, taskMap, counts) == q + a;
    LapEntriesConcat(q, a, lap);
    OneLap(a, m, lap);
    if lap == m {
      SecondPassPlaced(front, taskMap, counts);
      NoEntriesBeyond(q, lap);
    } else {
      LapEntriesOfSecondPass(front, taskMap, counts, lap);
      assert front[lap] == bs[lap];
    }
  }

  lemma {:induction false} NoEntriesBeyond(q: seq<Entry>, lap: nat)
    requires forall e :: e in q ==> e.lap < lap
    ensures LapEntries(q, lap) == [] && EarlierEntries(q, lap) == q
    decreases |q|
  {
    if |q| > 0 {
      NoEntriesBeyond(q[..|q| - 1], lap);
      assert q[..|q| - 1] + [q[|q| - 1]] == q;
    }
  }

  /** The entries of the laps before `lap` are the second pass over the buckets before it. */
  lemma {:induction false} EarlierEntriesOfSecondPass(bs: seq<seq<Fired>>, taskMap: map<TaskId, Task>, counts: map<TaskId, nat>, lap: nat)
    requires lap <= |bs|
    ensures EarlierEntries(SecondPass(bs, taskMap, counts), lap) == SecondPass(bs[..lap], taskMap, counts)
    decreases |bs|
  {
    if lap == |bs| {
      SecondPassPlaced(bs, taskMap, counts);
      NoEntriesBeyond(SecondPass(bs, taskMap, counts), lap);
      assert bs[..lap] == bs;
    } else {
      var front, last, m := bs[..|bs| - 1], bs[|bs| - 1], |bs| - 1;
      var q := SecondPass(front, taskMap, counts);
      var a := Annotate(last, m, taskMap, counts);
      EarlierEntriesConcat(q, a, lap);
      OneLapEarlier(a, m, lap);
      EarlierEntriesOfSecondPass(front, taskMap, counts, lap);
      assert front[..lap] == bs[..lap];
    }
  }

  lemma SumEntriesConcat(a: seq<Entry>, b: seq<Entry>)
    ensures SumEntries(a + b) == SumEntries(a) + SumEntries(b)
    decreases |b|
  {
    if |b| > 0 {
      assert (a + b)[..|a + b| - 1] == a + b[..|b| - 1];
      SumEntriesConcat(a, b[..|b| - 1]);
    } else {
      assert a + b == a;
    }
  }

  lemma {:induction false} SumAnnotate(b: seq<Fired>, lap: nat, taskMap: map<TaskId, Task>, counts: map<TaskId, nat>, j: nat)
    requires j <= |b|
    ensures SumEntries(Annotate(b, lap, taskMap, counts)[..j]) == SumFired(b[..j])
    decreases j
  {
    if j > 0 {
      var a := Annotate(b, lap, taskMap, counts);
      SumAnnotate(b, lap, taskMap, counts, j - 1);
      assert a[..j][..j - 1] == a[..j - 1];
      assert b[..j][..j - 1] == b[..j - 1];
    }
  }

  lemma {:induction false} SumSecondPass(bs: seq<seq<Fired>>, taskMap: map<TaskId, Task>, counts: map<TaskId, nat>)
    ensures SumEntries(SecondPass(bs, taskMap, counts)) == SumBuckets(bs)
    decreases |bs|
  {
    if |bs| > 0 {
      var front, last, m := bs[..|bs| - 1], bs[|bs| - 1], |bs| - 1;
      var a := Annotate(last, m, taskMap, counts);
      SumSecondPass(front, taskMap, counts);
      SumEntriesConcat(SecondPass(front, taskMap, counts), a);
      SumAnnotate(last, m, taskMap, counts, |last|);
      assert a[..|last|] == a && last[..|last|] == last;
    }
  }

  /** `cumulativeSessionDurations[i]` is the total of the entries before `i`. */
  lemma {:induction false} CumulativeIsPrefixSum(p: seq<Entry>)
    ensures forall i :: 0 <= i < |p| ==> Cumulative(p)[i] == SumEntries(p[..i])
    decreases |p|
  {
    if |p| > 0 {
      CumulativeIsPrefixSum(p[..|p| - 1]);
      assert forall i :: 0 <= i < |p| - 1 ==> p[..|p| - 1][..i] == p[..i];
    }
  }

  lemma {:induction false} LapDurationsAt(bs: seq<seq<Fired>>)
    ensures forall lap :: 0 <= lap < |bs| ==> LapDurations(bs)[lap] == SumFired(bs[lap])
    ensures forall lap :: 0 <= lap < |bs| ==> LapStarts(bs)[lap] == SumBuckets(bs[..lap])
    decreases |bs|
  {
    if |bs| > 0 {
      var front := bs[..|bs| - 1];
      LapDurationsAt(front);
      assert forall lap :: 0 <= lap < |front| ==> front[lap] == bs[lap] && front[..lap] == bs[..lap];
    }
  }

  /** An entry's offset is the total of the laps before its own, plus the firings of its
      own lap that precede it. */
  lemma {:induction false} CumulativeAt(bs: seq<seq<Fired>>, taskMap: map<TaskId, Task>, counts: map<TaskId, nat>, k: nat)
    requires k < |SecondPass(bs, taskMap, counts)|
    ensures var e := SecondPass(bs, taskMap, counts)[k];
            e.lap < |bs| && 1 <= e.taskIndexInLap <= |bs[e.lap]|
            && Strip(e) == bs[e.lap][e.taskIndexInLap - 1]
            && Cumulative(SecondPass(bs, taskMap, counts))[k]
               == SumBuckets(bs[..e.lap]) + SumFired(bs[e.lap][..e.taskIndexInLap - 1])
    decreases |bs|
  {
    var front, m := bs[..|bs| - 1], |bs| - 1;
    var q := SecondPass(front, taskMap, counts);
    if k < |q| {
      CumulativeAt(front, taskMap, counts, k);
      CumulativeInFront(bs, taskMap, counts, k);
      assert front[..q[k].lap] == bs[..q[k].lap] && front[q[k].lap] == bs[q[k].lap];
    } else {
      CumulativeInLast(bs, taskMap, counts, k - |q|);
      assert bs[..m] == front;
    }
  }

  /** An entry before the last bucket, and its running sum, are those of the second pass
      over the buckets before the last. */
  lemma CumulativeInFront(bs: seq<seq<Fired>>, taskMap: map<TaskId, Task>, counts: map<TaskId, nat>, k: nat)
    requires |bs| > 0 && k < |SecondPass(bs[..|bs| - 1], taskMap, counts)|
    ensures var q := SecondPass(bs[..|bs| - 1], taskMap, counts);
            var p := SecondPass(bs, taskMap, counts);
            k < |p| && p[k] == q[k] && Cumulative(p)[k] == Cumulative(q)[k]
  {
    var p := SecondPass(bs, taskMap, counts);
    var q := SecondPass(bs[..|bs| - 1], taskMap, counts);
    assert p == q + Annotate(bs[|bs| - 1], |bs| - 1, taskMap, counts);
    CumulativeIsPrefixSum(q);
    CumulativeIsPrefixSum(p);
    assert p[..k] == q[..k];
  }

  /** The running sum at the `j`-th entry of the last bucket: all earlier buckets, then the
      entries of the last one before it. */
  lemma CumulativeInLast(bs: seq<seq<Fired>>, taskMap: map<TaskId, Task>, counts: map<TaskId, nat>, j: nat)
    requires |bs| > 0 && j < |bs[|bs| - 1]|
    ensures var q := SecondPass(bs[..|bs| - 1], taskMap, counts);
            var p := SecondPass(bs, taskMap, counts);
            |q| + j < |p| && p[|q| + j] == Annotate(bs[|bs| - 1], |bs| - 1, taskMap, counts)[j]
            && Cumulative(p)[|q| + j] == SumBuckets(bs[..|bs| - 1]) + SumFired(bs[|bs| - 1][..j])
  {
    var p := SecondPass(bs, taskMap, counts);
    var front, last, m := bs[..|bs| - 1], bs[|bs| - 1], |bs| - 1;
    var q := SecondPass(front, taskMap, counts);
    var a := Annotate(last, m, taskMap, counts);
    assert p == q + a;
    var k := |q| + j;
    CumulativeIsPrefixSum(p);
    assert p[k] == a[j];
    assert p[..k] == q + a[..j];
    SumEntriesConcat(q, a[..j]);
    SumSecondPass(front, taskMap, counts);
    SumAnnotate(last, m, taskMap, counts, j);
  }

  /** Some lap carries the number `n`. */
  ghost predicate Numbered(m: map<nat, nat>, n: nat) {
    exists lap :: lap in m && m[lap] == n
  }

  /** `activeLapMap` numbers exactly the non-empty laps, consecutively from 1 in lap order. */
  lemma {:induction false} ActiveLapsNumbering(bs: seq<seq<Fired>>)
    ensures forall lap: nat :: lap in ActiveLaps(bs) <==> lap < |bs| && |bs[lap]| > 0
    ensures forall lap :: lap in ActiveLaps(bs) ==> 1 <= ActiveLaps(bs)[lap] <= ActiveCount(bs)
    ensures forall l1, l2 :: l1 in ActiveLaps(bs) && l2 in ActiveLaps(bs) && l1 < l2 ==> ActiveLaps(bs)[l1] < ActiveLaps(bs)[l2]
    ensures forall n: nat :: 1 <= n <= ActiveCount(bs) ==> Numbered(ActiveLaps(bs), n)
    decreases |bs|
  {
    if |bs| > 0 {
      var front := bs[..|bs| - 1];
      ActiveLapsNumbering(front);
      assert forall lap :: 0 <= lap < |front| ==> front[lap] == bs[lap];
      var m := ActiveLaps(front);
      forall n: nat | 1 <= n <= ActiveCount(bs) ensures Numbered(ActiveLaps(bs), n) {
        if n <= ActiveCount(front) {
          assert Numbered(m, n);
          var lap :| lap in m && m[lap] == n;
          assert ActiveLaps(bs)[lap] == n;
        } else {
          assert ActiveLaps(bs)[|bs| - 1] == n;
        }
      }
    }
  }
}
