/** A worked expansion: a task with lap interval 2, run for four laps (laps 0 .. 3), fires on laps 0 and 2. */
module PlaylistExamples {
  import opened Tasks
  import opened Playlist

  const Pulse := Task(7, "", "", "", 10, 2, 0, 0)
  const PulseMap := map[7 := Pulse]
  const F1 := Fired(7, 10, 10, 1)
  const F2 := Fired(7, 10, 10, 2)
  const T1 := Tally(map[7 := 0], map[7 := 1])
  const T2 := Tally(map[7 := 2], map[7 := 2])

  lemma Lap(lap: nat, t: Tally, b: seq<Fired>, t': Tally)
    requires Visit(PulseMap, lap, 7, LapScan([], t)) == LapScan(b, t')
    ensures ScanLap(PulseMap, lap, [7], LapScan([], t)) == LapScan(b, t')
  {
    assert [7][..0] == [];
  }

  lemma Passes()
    ensures FirstPass(PulseMap, [7], 4) == Buckets([[F1], [], [F2], []], T2)
  {
    assert Visit(PulseMap, 0, 7, LapScan([], Empty)) == LapScan([F1], T1);
    Lap(0, Empty, [F1], T1);
    assert Visit(PulseMap, 1, 7, LapScan([], T1)) == LapScan([], T1);
    Lap(1, T1, [], T1);
    assert Visit(PulseMap, 2, 7, LapScan([], T1)) == LapScan([F2], T2);
    Lap(2, T1, [F2], T2);
    assert Visit(PulseMap, 3, 7, LapScan([], T2)) == LapScan([], T2);
    Lap(3, T2, [], T2);
  }

  lemma SecondPassStep(bs: seq<seq<Fired>>, b: seq<Fired>, c: map<TaskId, nat>)
    ensures SecondPass(bs + [b], PulseMap, c) == SecondPass(bs, PulseMap, c) + Annotate(b, |bs|, PulseMap, c)
  {
    assert (bs + [b])[..|bs|] == bs;
  }

  lemma AnnotateOne(f: Fired, lap: nat, c: map<TaskId, nat>)
    ensures Annotate([f], lap, PulseMap, c) == [Annotated(f, lap, 1, 0, PulseMap, c)]
  {
  }

  lemma IntervalTwo()
    ensures Expand(PulseMap, [7], 4).playlist
         == [Entry(7, 10, 10, 1, 0, 1, 1, 2), Entry(7, 10, 10, 2, 2, 1, 1, 2)]
  {
    Passes();
    Flattened();
  }

  /** The second pass over the four buckets: one entry on lap 0 and one on lap 2, each the
      only task of its lap and each of 2 occurrences in all. */
  lemma Flattened()
    ensures SecondPass([[F1], [], [F2], []], PulseMap, T2.counts)
         == [Entry(7, 10, 10, 1, 0, 1, 1, 2), Entry(7, 10, 10, 2, 2, 1, 1, 2)]
  {
    var c := T2.counts;
    FirstTwoLaps();
    SecondPassStep([[F1], []], [F2], c);
    SecondPassStep([[F1], [], [F2]], [], c);
    AnnotateOne(F2, 2, c);
    assert Annotate([], 3, PulseMap, c) == [];
    assert TotalOccurrences(PulseMap, c, 7) == 2;
    var e2 := Entry(7, 10, 10, 2, 2, 1, 1, 2);
    assert Annotated(F2, 2, 1, 0, PulseMap, c) == e2;
    assert [[F1], []] + [[F2]] == [[F1], [], [F2]];
    assert [[F1], [], [F2]] + [[]] == [[F1], [], [F2], []];
  }

  /** The second pass over the first two buckets: the one entry of lap 0. */
  lemma FirstTwoLaps()
    ensures SecondPass([[F1], []], PulseMap, T2.counts) == [Entry(7, 10, 10, 1, 0, 1, 1, 2)]
  {
    FirstLap();
    SecondPassStep([[F1]], [], T2.counts);
    assert Annotate([], 1, PulseMap, T2.counts) == [];
    assert [[F1]] + [[]] == [[F1], []];
  }

  /** The second pass over the first bucket. */
  lemma FirstLap()
    ensures SecondPass([[F1]], PulseMap, T2.counts) == [Entry(7, 10, 10, 1, 0, 1, 1, 2)]
  {
    var none: seq<seq<Fired>> := [];
    SecondPassStep(none, [F1], T2.counts);
    AnnotateOne(F1, 0, T2.counts);
    assert TotalOccurrences(PulseMap, T2.counts, 7) == 2;
    assert none + [[F1]] == [[F1]];
  }
}
