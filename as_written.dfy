/** Three calls that throw a TypeError as the code is written, and what the runner and the
    session guard then do. The rest of the project models these calls as evidently intended:
    the lap list rendered with a task map, the completion modal shown on the modal's own
    elements, and `isSessionActive()` as "the runner is not STOPPED". */
module AsWritten {
  import opened Wrappers
  import opened Tasks
  import opened Seqs
  import opened Playlist
  import opened PlaylistProps
  import opened Runner
  import Actions

  /** How a JavaScript call ends: it returns, or an exception propagates out of it. */
  datatype Completion = Returned | Threw

  /** `UI.renderLapList(dom, state)` called with no task map (runner.js:118, 297): the total's
      `reduce` (ui.js:159-160) calls `get` on `undefined` for the first listed id. */
  function RenderLapListWithoutMap(lapList: seq<TaskId>): Completion {
    if |lapList| > 0 then Threw else Returned
  }

  /** `stopSession(finished)` as written (runner.js:269-298). The runner's DOM has no
      `modalTitle` (script.js:158-190), so the completion modal throws on its first write
      (ui.js:409): a finished stop keeps its index and shows nothing. An unfinished stop
      resets the index, then throws in the lap-list render when the lap list has ids. */
  method StopAsWritten(s: State, finished: bool) returns (c: Completion)
    modifies s`runnerState, s`timerActive, s`currentIndex
    ensures s.runnerState == Stopped && !s.timerActive
    ensures finished ==> c == Threw && s.currentIndex == old(s.currentIndex)
    ensures !finished ==> s.currentIndex == -1 && (c == Threw <==> |s.lapList| > 0)
  {
    s.timerActive := false;
    s.runnerState := Stopped;
    if finished {
      return Threw;
    }
    s.currentIndex := -1;
    c := RenderLapListWithoutMap(s.lapList);
  }

  /** `loadTaskToRunner(v)` as written (runner.js:45-120): the recount and the index are set
      first; a load inside the playlist sets the time left and then throws in the lap-list
      render (runner.js:118) when the lap list has ids; any other index ends in the throwing
      finished stop, so the index stays `v` and no notice is shown. */
  method LoadTaskAsWritten(s: State, v: int) returns (c: Completion)
    requires v <= |s.data.playlist|
    modifies s`completedOccurrences, s`currentIndex, s`timeLeft, s`runnerState, s`timerActive
    ensures var p := s.data.playlist;
      s.completedOccurrences == CountMap(p[..if v < 0 then 0 else if v > |p| then |p| else v])
      && s.currentIndex == v
      && if 0 <= v < |p| && p[v].taskId in s.sessionTaskMap then
           s.timeLeft == p[v].calculatedDuration
           && s.runnerState == old(s.runnerState) && s.timerActive == old(s.timerActive)
           && (c == Threw <==> |s.lapList| > 0)
         else
           s.runnerState == Stopped && !s.timerActive && s.timeLeft == old(s.timeLeft) && c == Threw
  {
    var counts := CountCompleted(s.data.playlist, v);
    s.completedOccurrences := counts;
    s.currentIndex := v;
    if v < 0 || v >= |s.data.playlist| {
      if v >= |s.data.playlist| {
        var all := CountCompleted(s.data.playlist, |s.data.playlist|);
        s.completedOccurrences := all;
      }
      c := StopAsWritten(s, true);
      return;
    }
    if s.data.playlist[v].taskId !in s.sessionTaskMap {
      c := StopAsWritten(s, true);
      return;
    }
    s.timeLeft := s.data.playlist[v].calculatedDuration;
    c := RenderLapListWithoutMap(s.lapList);
  }

  /** `startSession` as written (runner.js:218-241): an empty expansion is refused with the
      alert, as intended; otherwise the new session cache is installed and the load of its
      first entry throws when the lap list has ids, so `startSession` never returns true. */
  method StartSessionAsWritten(s: State, lapsInput: Option<nat>) returns (c: Completion)
    modifies s`data, s`sessionTaskMap, s`sessionLaps, s`sessionLapList
    modifies s`completedDurations, s`completedOccurrences, s`currentIndex, s`timeLeft
    modifies s`runnerState, s`timerActive, s`notices
    ensures var expansion := Expand(TaskMapOf(old(s.tasks)), old(s.lapList), LapsOf(lapsInput));
      if |expansion.playlist| == 0 then
        c == Returned && s.notices == old(s.notices) + [BrowserAlert(NothingScheduled)]
        && unchanged(s`runnerState, s`timerActive, s`currentIndex, s`data)
      else
        s.data == expansion && BegunAsWritten(s, c, TaskMapOf(old(s.tasks)), LapsOf(lapsInput))
  {
    var totalLaps := LapsOf(lapsInput);
    var taskMap := TaskMapOf(s.tasks);
    var playlistData := BuildVirtualPlaylist(taskMap, s.lapList, totalLaps);
    if |playlistData.playlist| == 0 {
      s.notices := s.notices + [BrowserAlert(NothingScheduled)];
      return Returned;
    }
    EntriesKnown(taskMap, s.lapList, totalLaps);
    c := BeginAsWritten(s, playlistData, taskMap, totalLaps);
  }

  /** The session cache installed by startSession and its first entry loaded as written: the
      load ends in the throwing lap-list render when the lap list has ids; the run state, the
      timer and the notices are as they were. */
  twostate predicate BegunAsWritten(s: State, c: Completion, taskMap: map<TaskId, Task>, totalLaps: nat)
    reads s
  {
    (c == Threw <==> |s.lapList| > 0)
    && s.sessionTaskMap == taskMap && s.sessionLaps == totalLaps
    && s.completedDurations == map[] && s.completedOccurrences == map[]
    && 0 == s.currentIndex < |s.data.playlist| && s.timeLeft == s.data.playlist[0].calculatedDuration
    && unchanged(s`runnerState, s`timerActive, s`notices)
  }

  /** The new session cache of startSession (runner.js:228-234) and the load of its first
      entry as written (runner.js:236). */
  method BeginAsWritten(s: State, playlistData: PlaylistData, taskMap: map<TaskId, Task>, totalLaps: nat)
    returns (c: Completion)
    requires |playlistData.playlist| > 0
    requires forall k :: 0 <= k < |playlistData.playlist| ==> playlistData.playlist[k].taskId in taskMap
    modifies s`data, s`sessionTaskMap, s`sessionLaps, s`sessionLapList
    modifies s`completedDurations, s`completedOccurrences, s`currentIndex, s`timeLeft
    modifies s`runnerState, s`timerActive
    ensures s.data == playlistData && BegunAsWritten(s, c, taskMap, totalLaps)
  {
    s.sessionLapList := s.lapList;
    s.data, s.sessionTaskMap, s.sessionLaps := playlistData, taskMap, totalLaps;
    s.completedDurations, s.completedOccurrences := map[], map[];
    c := LoadTaskAsWritten(s, 0);
    assert s.data.playlist[..0] == [];
  }

  /** `playPauseSession` as written (runner.js:243-267). Play from STOPPED needs a lap list
      with ids, so the start either ends in the alert or throws: the runner stays STOPPED with
      no interval, and a scheduled session's cache is left in place at entry 0. */
  method PlayPauseAsWritten(s: State, lapsInput: Option<nat>) returns (c: Completion)
    requires s.Valid()
    modifies s`data, s`sessionTaskMap, s`sessionLaps, s`sessionLapList
    modifies s`completedDurations, s`completedOccurrences, s`currentIndex, s`timeLeft
    modifies s`runnerState, s`timerActive, s`notices
    ensures old(s.runnerState) == Running ==> s.runnerState == Paused && !s.timerActive && c == Returned
    ensures old(s.runnerState) != Running && |s.lapList| == 0 ==>
              s.notices == old(s.notices) + [BrowserAlert(AddTasksFirst)] && c == Returned
              && unchanged(s`runnerState, s`timerActive, s`currentIndex, s`data)
    ensures old(s.runnerState) == Paused && |s.lapList| > 0 ==>
              s.runnerState == Running && s.timerActive && c == Returned
    ensures old(s.runnerState) == Stopped && |s.lapList| > 0 ==>
              var expansion := Expand(TaskMapOf(old(s.tasks)), old(s.lapList), LapsOf(lapsInput));
              s.runnerState == Stopped && !s.timerActive
              && (|expansion.playlist| == 0 ==>
                    c == Returned && s.notices == old(s.notices) + [BrowserAlert(NothingScheduled)]
                    && unchanged(s`currentIndex, s`data))
              && (|expansion.playlist| > 0 ==>
                    c == Threw && s.notices == old(s.notices) && s.data == expansion
                    && s.currentIndex == 0 && s.timeLeft == expansion.playlist[0].calculatedDuration)
  {
    if s.runnerState == Running {
      s.Pause();
      return Returned;
    }
    if |s.lapList| == 0 {
      s.notices := s.notices + [BrowserAlert(AddTasksFirst)];
      return Returned;
    }
    if s.runnerState == Stopped {
      c := StartSessionAsWritten(s, lapsInput);
      return;
    }
    if s.currentIndex >= |s.data.playlist| {
      return Returned;
    }
    s.Resume();
    c := Returned;
  }

  /** `deleteTask` as written (actions.js:132-141). runner.js exports no `isSessionActive`, so
      the guard's call throws and the library and the lap list stay as they are. Every other
      handler whose first step is that call ends the same way (actions.js:120, 157, 169, 179;
      events.js:83, 100, 114, 129, 159). */
  method DeleteTaskAsWritten(s: State, id: TaskId) returns (c: Completion)
    ensures c == Threw
  {
    c := Threw;
  }

  /** A stored task of one minute that runs on every lap. */
  const Focus := Task(1, "Focus", "", "cat-0", 60, 1, 0, 0)

  /** A fresh state holding only `Focus`, listed in the lap list: a session over it has
      entries for any laps input. */
  method FocusState(lapsInput: Option<nat>) returns (s: State)
    ensures fresh(s) && s.Valid() && s.runnerState == Stopped && s.notices == [] && |s.lapList| > 0
    ensures |Expand(TaskMapOf(s.tasks), s.lapList, LapsOf(lapsInput)).playlist| > 0
  {
    s := new State([Focus], [1], 1);
    assert s.tasks == [Focus];
    LapZeroRunsAll(TaskMapOf(s.tasks), [1], LapsOf(lapsInput), 1);
  }

  /** Play on the one-task library for one lap, as written: the runner stays STOPPED. */
  method PlayFromStoppedAsWritten(lapsInput: Option<nat>) returns (state: RunnerState, c: Completion)
    requires LapsOf(lapsInput) == 1
    ensures state == Stopped && c == Threw
  {
    var s := FocusState(lapsInput);
    c := PlayPauseAsWritten(s, lapsInput);
    state := s.runnerState;
  }

  /** Play on the one-task library for one lap, as intended: a RUNNING session at its first
      entry. */
  method PlayFromStopped(lapsInput: Option<nat>) returns (state: RunnerState, index: int, timer: bool)
    requires LapsOf(lapsInput) == 1
    ensures state == Running && index == 0 && timer
  {
    var s := FocusState(lapsInput);
    s.PlayPause(lapsInput);
    state, index, timer := s.runnerState, s.currentIndex, s.timerActive;
  }

  /** A one-lap session, started as intended, skipped past its last lap with the load as
      written (runner.js:328-329): STOPPED on an index past the end, with no notice shown. */
  method FinishAsWritten(lapsInput: Option<nat>)
    returns (state: RunnerState, pastEnd: bool, notices: seq<Notice>, c: Completion)
    requires LapsOf(lapsInput) == 1
    ensures state == Stopped && pastEnd && notices == [] && c == Threw
  {
    var s := FocusState(lapsInput);
    s.PlayPause(lapsInput);
    c := LoadTaskAsWritten(s, |s.data.playlist|);
    state, pastEnd, notices := s.runnerState, s.currentIndex == |s.data.playlist|, s.notices;
  }

  /** The same session skipped past its last lap as intended: STOPPED at -1, with the
      session-complete notice for its one lap. */
  method Finish(lapsInput: Option<nat>) returns (state: RunnerState, index: int, notices: seq<Notice>)
    requires LapsOf(lapsInput) == 1
    ensures state == Stopped && index == -1 && notices == [SessionComplete(1)]
  {
    var s := FocusState(lapsInput);
    s.PlayPause(lapsInput);
    s.SkipToLap(1);
    state, index, notices := s.runnerState, s.currentIndex, s.notices;
  }

  /** Deleting `Focus` while STOPPED, as written: the task stays. */
  method DeleteStoppedAsWritten() returns (tasks: seq<Task>, c: Completion)
    ensures tasks == [Focus] && c == Threw
  {
    var s := new State([Focus], [1], 1);
    c := DeleteTaskAsWritten(s, 1);
    tasks := s.tasks;
  }

  /** Deleting `Focus` while STOPPED, as intended: the library and the lap list are empty. */
  method DeleteStopped() returns (tasks: seq<Task>, lapList: seq<TaskId>)
    ensures tasks == [] && lapList == []
  {
    var s := new State([Focus], [1], 1);
    assert s.tasks == [Focus];
    Actions.DeleteTask(s, 1);
    tasks, lapList := s.tasks, s.lapList;
  }
}
