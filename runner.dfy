/** The session runner of runner.js, acting on the shared `state` object of state.js. */
module Runner {
  import opened Wrappers
  import opened Tasks
  import opened Playlist
  import opened PlaylistLog
  import opened PlaylistShape
  import opened PlaylistProps
  import opened Sorting
  import Duration
  import Ui

  datatype RunnerState = Stopped | Running | Paused

  /** The messages the app shows, each written out in full by `Text`. */
  datatype Message =
    | AddTasksFirst | NothingScheduled
    | TitleEmpty | DurationNotPositive
    | EditBlocked | DeleteBlocked | PlaylistLocked
    | StopToDeleteAll | StopToAddAll | StopToClear

  /** The titles of the alert dialog of `UI.showAlert`. */
  datatype Title = Validation | ActionBlocked | Info

  /** What the page shows the user outside the regular render: `alert(...)` boxes, the alert
      dialog of `UI.showAlert`, and the completion modal of `stopSession(true)`. */
  datatype Notice =
    | BrowserAlert(message: Message)
    | Dialog(title: Title, message: Message)
    | SessionComplete(laps: nat)

  function Text(m: Message): string {
    match m
      case AddTasksFirst => "Add tasks to the Lap Playlist before starting."
      case NothingScheduled => "No tasks are scheduled to run in this session with the current intervals and limits."
      case TitleEmpty => "Task title cannot be empty."
      case DurationNotPositive => "Duration must be greater than 0 seconds."
      case EditBlocked => "Cannot edit a task that is part of an active lap session."
      case DeleteBlocked => "Cannot delete a task that is part of an active lap session."
      case PlaylistLocked => "Please stop the lap session to modify the playlist."
      case StopToDeleteAll => "Please stop the session to delete all tasks."
      case StopToAddAll => "Please stop the session to add all tasks."
      case StopToClear => "Please stop the session to clear the playlist."
  }

  function TitleText(t: Title): string {
    match t
      case Validation => "Validation"
      case ActionBlocked => "Action blocked"
      case Info => "Info"
  }

  /** `completedOccurrencesMap` as loadTaskToRunner rebuilds it: how often each task occurs in `q`. */
  function CountMap(q: seq<Entry>): map<TaskId, nat>
    decreases |q|
  {
    if |q| == 0 then map[]
    else
      var m := CountMap(q[..|q| - 1]);
      var id := q[|q| - 1].taskId;
      m[id := Occ(m, id) + 1]
  }

  /** `completedTaskDurationsMap` after the entry `e` has run to its end. */
  function Credit(m: map<TaskId, int>, e: Entry): (r: map<TaskId, int>)
    ensures r.Keys == m.Keys + {e.taskId}
    ensures r[e.taskId] == Ui.GetOr(m, e.taskId) + e.calculatedDuration
    ensures forall id :: id in m && id != e.taskId ==> r[id] == m[id]
  {
    m[e.taskId := Ui.GetOr(m, e.taskId) + e.calculatedDuration]
  }

  /** `parseInt(lapsInput) || 1`: an unreadable or zero input means one lap. */
  function LapsOf(lapsInput: Option<nat>): (laps: nat)
    ensures laps >= 1
    ensures lapsInput.Some? && lapsInput.value > 0 ==> laps == lapsInput.value
  {
    match lapsInput
      case None => 1
      case Some(n) => if n == 0 then 1 else n
  }

  /** findIndex over the playlist for the first entry of lap `lap`. */
  function FindLap(p: seq<Entry>, lap: int): (k: int)
    ensures -1 <= k < |p|
    ensures k >= 0 ==> p[k].lap == lap && forall j :: 0 <= j < k ==> p[j].lap != lap
    ensures k == -1 ==> forall j :: 0 <= j < |p| ==> p[j].lap != lap
    decreases |p|
  {
    if |p| == 0 then -1
    else if p[0].lap == lap then 0
    else
      var k := FindLap(p[1..], lap);
      assert forall j :: 1 <= j < |p| ==> p[j] == p[1..][j - 1];
      if k == -1 then -1 else k + 1
  }

  /** The index skipToLap moves to, starting the search at lap `target` and stepping by
      `direction` while no entry is found and the lap is inside the session (runner.js:334-347).
      A found index is the first entry of the nearest lap in that direction that has entries;
      -1 means no lap between `target` and the session's end (or lap 0) has any. */
  function Seek(p: seq<Entry>, target: int, direction: int, totalLaps: nat): (n: int)
    requires direction == 1 || direction == -1
    ensures -1 <= n < |p|
    ensures n >= 0 ==> forall j :: 0 <= j < n ==> p[j].lap != p[n].lap
    ensures n >= 0 && direction > 0 ==>
              target <= p[n].lap && forall j :: 0 <= j < |p| ==> !(target <= p[j].lap < p[n].lap)
    ensures n >= 0 && direction < 0 ==>
              p[n].lap <= target && forall j :: 0 <= j < |p| ==> !(p[n].lap < p[j].lap <= target)
    ensures n == -1 && direction > 0 && target >= 0 ==>
              forall j :: 0 <= j < |p| ==> !(target <= p[j].lap < totalLaps)
    ensures n == -1 && direction < 0 && target < totalLaps ==>
              forall j :: 0 <= j < |p| ==> !(0 <= p[j].lap <= target)
    decreases if direction > 0 then totalLaps - target else target + 1
  {
    var n := FindLap(p, target);
    if n == -1 && 0 <= target < totalLaps then Seek(p, target + direction, direction, totalLaps) else n
  }

  /** The change shown when a task is loaded: `Math.round(delta / base * 100)` percent of the base,
      0 for a base that is not positive (runner.js:89-91). */
  function ChangePercentage(calculatedDuration: int, baseDuration: int): (r: int)
    ensures r > 0 ==> calculatedDuration > baseDuration
    ensures r < 0 ==> calculatedDuration < baseDuration
    ensures calculatedDuration == baseDuration ==> r == 0
  {
    if baseDuration > 0
    then Duration.Round((calculatedDuration - baseDuration) as real / baseDuration as real * 100.0)
    else 0
  }

  /** The change shown for an occurrence follows the sign of the growth factor: none on a
      task's first occurrence, and never a loss under growth or a gain under decay. */
  lemma ChangeFollowsGrowth(base: int, growthFactor: int, occurrence: nat)
    requires MinDurationSeconds <= base <= MaxDurationSeconds && occurrence >= 1
    ensures occurrence == 1 ==> ChangePercentage(Duration.Calculated(base, growthFactor, occurrence), base) == 0
    ensures growthFactor > 0 ==> ChangePercentage(Duration.Calculated(base, growthFactor, occurrence), base) >= 0
    ensures -99 <= growthFactor < 0 ==> ChangePercentage(Duration.Calculated(base, growthFactor, occurrence), base) <= 0
  {
    Duration.FirstOccurrenceKeepsBase(base, growthFactor);
    if growthFactor > 0 {
      GrowthAtLeastBase(base, growthFactor, occurrence);
    } else if growthFactor < 0 && -99 <= growthFactor {
      DecayAtMostBase(base, growthFactor, occurrence);
    }
  }

  /** Under growth no occurrence is shorter than the base. */
  lemma {:induction false} GrowthAtLeastBase(base: int, growthFactor: int, occurrence: nat)
    requires MinDurationSeconds <= base <= MaxDurationSeconds && growthFactor > 0 && occurrence >= 1
    ensures Duration.Calculated(base, growthFactor, occurrence) >= base
    decreases occurrence
  {
    if occurrence == 1 {
      Duration.FirstOccurrenceKeepsBase(base, growthFactor);
    } else {
      GrowthAtLeastBase(base, growthFactor, occurrence - 1);
      Duration.GrowthNonDecreasing(base, growthFactor, occurrence - 1);
    }
  }

  /** Under decay no occurrence is longer than the base. */
  lemma {:induction false} DecayAtMostBase(base: int, growthFactor: int, occurrence: nat)
    requires MinDurationSeconds <= base <= MaxDurationSeconds && -99 <= growthFactor < 0 && occurrence >= 1
    ensures Duration.Calculated(base, growthFactor, occurrence) <= base
    decreases occurrence
  {
    if occurrence == 1 {
      Duration.FirstOccurrenceKeepsBase(base, growthFactor);
    } else {
      DecayAtMostBase(base, growthFactor, occurrence - 1);
      Duration.DecayNonIncreasing(base, growthFactor, occurrence - 1);
    }
  }

  /** How a stored task is read back by state.js:6-11 (`lapInterval || 1`). */
  function FromStorage(t: Task): (r: Task)
    ensures r.lapInterval != 0
    ensures t.lapInterval != 0 ==> r == t
  {
    if t.lapInterval == 0 then t.(lapInterval := 1) else t
  }

  class State {
    // The task library (state.js:5-19).
    var tasks: seq<Task>
    var lapList: seq<TaskId>
    var lastId: int
    /** The sort header name last clicked (`state.sortState.field`). */
    var sortField: string
    var sortOrder: SortOrder
    var selectedCategoryId: string
    var editingTaskId: Option<TaskId>
    var draggedItemId: Option<TaskId>
    // The runner.
    var runnerState: RunnerState
    var currentIndex: int
    var timeLeft: int
    /** Whether the one-second interval is set (`state.sessionInterval`). */
    var timerActive: bool
    // The session cache: the expansion and the maps kept beside it.
    var data: PlaylistData
    var sessionTaskMap: map<TaskId, Task>
    var sessionLaps: nat
    var completedDurations: map<TaskId, int>
    var completedOccurrences: map<TaskId, nat>
    /** The lap list the cached playlist was built from (StartSession and Restart state that
        `data` is the expansion of the session's task map and lap count over it). */
    ghost var sessionLapList: seq<TaskId>
    /** Everything shown in alerts and modals so far. */
    var notices: seq<Notice>

    /** The runner's invariant: its position is consistent with the cached playlist, the
        current entry's time left is in range, and every entry's task is in the session's
        task map. */
    ghost predicate Valid()
      reads this
    {
      Position() && TimeLeftWithin() && Known()
    }

    /** Every entry of the cached playlist is of a task of the session's task map, so the
        lookup of loadTaskToRunner (runner.js:80-81) finds it. */
    ghost predicate Known()
      reads this`data, this`sessionTaskMap
    {
      forall e :: e in data.playlist ==> e.taskId in sessionTaskMap
    }

    /** The run state agrees with the timer and the index: a STOPPED runner is at -1, and -1
        outside STOPPED means the playlist is empty. */
    ghost predicate Position()
      reads this
    {
      (timerActive <==> runnerState == Running)
      && (runnerState == Stopped ==> currentIndex == -1)
      && (currentIndex == -1 ==> runnerState == Stopped || |data.playlist| == 0)
      && Placed()
    }

    /** The current index is -1 or an index of the playlist, and the occurrence counts are
        those of the entries before it. */
    ghost predicate Placed()
      reads this`currentIndex, this`data, this`completedOccurrences
    {
      -1 <= currentIndex < |data.playlist|
      && (currentIndex >= 0 ==> completedOccurrences == CountMap(data.playlist[..currentIndex]))
    }

    /** The current entry's time left lies between zero and its duration (or is the duration,
        when that is negative). It fails only inside a tick that has just counted below zero. */
    ghost predicate TimeLeftWithin()
      reads this
    {
      0 <= currentIndex < |data.playlist| ==>
        var d := data.playlist[currentIndex].calculatedDuration;
        timeLeft == d || 0 <= timeLeft <= d
    }

    /** The runner after `loadTaskToRunner(v)` (runner.js:45-120): the completed occurrences are
        recounted for the entries before `v`; an index inside the playlist whose task the
        session's task map holds becomes the current entry with its full duration left; any
        other index ends the session as finished, with the time left as it was. */
    twostate predicate Loaded(v: int)
      reads this
    {
      LoadedLeaving(v, old(timeLeft))
    }

    /** `Loaded(v)` for a load that follows a change of the time left to `left`: a finished
        session keeps `left`. */
    twostate predicate LoadedLeaving(v: int, left: int)
      reads this
    {
      var p := data.playlist;
      completedOccurrences == CountMap(p[..if v < 0 then 0 else if v > |p| then |p| else v])
      && if 0 <= v < |p| && p[v].taskId in sessionTaskMap then
           currentIndex == v && timeLeft == p[v].calculatedDuration
           && runnerState == old(runnerState) && timerActive == old(timerActive) && notices == old(notices)
         else
           runnerState == Stopped && !timerActive && currentIndex == -1 && timeLeft == left
           && notices == old(notices) + [SessionComplete(sessionLaps)]
    }

    /** The state as state.js builds it from what was stored. */
    constructor (storedTasks: seq<Task>, storedLapList: seq<TaskId>, storedLastId: int)
      ensures Valid()
      ensures |tasks| == |storedTasks| && forall i :: 0 <= i < |tasks| ==> tasks[i] == FromStorage(storedTasks[i])
      ensures lapList == storedLapList && lastId == storedLastId
      ensures sortField == "id" && sortOrder == Desc && selectedCategoryId == "cat-0"
      ensures editingTaskId == None && draggedItemId == None
      ensures runnerState == Stopped && currentIndex == -1 && !timerActive
      ensures data.playlist == [] && completedOccurrences == map[] && notices == []
    {
      tasks := seq(|storedTasks|, i requires 0 <= i < |storedTasks| => FromStorage(storedTasks[i]));
      lapList := storedLapList;
      lastId := storedLastId;
      sortField, sortOrder := "id", Desc;
      selectedCategoryId := "cat-0";
      editingTaskId, draggedItemId := None, None;
      runnerState, currentIndex, timeLeft, timerActive := Stopped, -1, 0, false;
      data := Expand(map[], [], 0);
      sessionTaskMap, sessionLaps, sessionLapList := map[], 0, [];
      completedDurations, completedOccurrences := map[], map[];
      notices := [];
    }

    /** `isSessionActive()`: a session is active unless the runner is STOPPED. */
    predicate IsSessionActive()
      reads this
    {
      runnerState != Stopped
    }

    /** `stopSession(finished)` (runner.js:269-298). */
    method Stop(finished: bool)
      modifies this`runnerState, this`timerActive, this`currentIndex, this`notices
      ensures runnerState == Stopped && !timerActive && currentIndex == -1
      ensures notices == old(notices) + (if finished then [SessionComplete(sessionLaps)] else [])
    {
      timerActive := false;
      runnerState := Stopped;
      if finished {
        notices := notices + [SessionComplete(sessionLaps)];
      }
      currentIndex := -1;
    }

    /** `loadTaskToRunner(v)`. An index past the end would make the counting loop read a
        missing entry, so it is excluded. */
    method LoadTask(v: int)
      requires v <= |data.playlist|
      modifies this`completedOccurrences, this`currentIndex, this`timeLeft
      modifies this`runnerState, this`timerActive, this`notices
      ensures Loaded(v)
      ensures old(Position() && Known()) && (old(runnerState) != Stopped || !(0 <= v < |data.playlist|)) ==> Valid()
    {
      var counts := CountCompleted(data.playlist, v);
      completedOccurrences := counts;
      currentIndex := v;
      if v < 0 || v >= |data.playlist| {
        if v >= |data.playlist| {
          var all := CountCompleted(data.playlist, |data.playlist|);
          completedOccurrences := all;
        }
        Stop(true);
        return;
      }
      if data.playlist[v].taskId !in sessionTaskMap {
        Stop(true);
        return;
      }
      timeLeft := data.playlist[v].calculatedDuration;
    }

    /** The RUNNING branch of `playPauseSession`: clear the interval and pause. */
    method Pause()
      modifies this`runnerState, this`timerActive
      ensures runnerState == Paused && !timerActive
    {
      timerActive := false;
      runnerState := Paused;
    }

    /** The end of `playPauseSession`: RUNNING, with the interval started. */
    method Resume()
      requires Placed() && TimeLeftWithin() && Known() && (currentIndex == -1 ==> |data.playlist| == 0)
      modifies this`runnerState, this`timerActive
      ensures Valid() && runnerState == Running && timerActive
    {
      runnerState := Running;
      timerActive := true;
    }

    /** `handleTaskCompletion` (runner.js:19-34): credit the current entry's duration to its
        task, then load the next entry. */
    method HandleTaskCompletion()
      requires Position() && Known() && runnerState != Stopped
      modifies this`completedDurations, this`completedOccurrences, this`currentIndex, this`timeLeft
      modifies this`runnerState, this`timerActive, this`notices
      ensures Valid()
      ensures completedDurations == if old(currentIndex) > -1
                                    then Credit(old(completedDurations), old(data.playlist)[old(currentIndex)])
                                    else old(completedDurations)
      ensures Loaded(old(currentIndex) + 1)
    {
      if currentIndex > -1 {
        completedDurations := Credit(completedDurations, data.playlist[currentIndex]);
      }
      LoadTask(currentIndex + 1);
    }

    /** One firing of the interval (runner.js:38-42): count down a second, and complete the
        entry once its time left drops below zero. Without an interval nothing happens. */
    method Tick()
      requires Valid()
      modifies this`completedDurations, this`completedOccurrences, this`currentIndex, this`timeLeft
      modifies this`runnerState, this`timerActive, this`notices
      ensures Valid()
      ensures !old(timerActive) ==> unchanged(this)
      ensures old(timerActive) && old(timeLeft) >= 1 ==>
                timeLeft == old(timeLeft) - 1
                && unchanged(this`completedDurations, this`completedOccurrences, this`currentIndex,
                             this`runnerState, this`timerActive, this`notices)
      ensures old(timerActive) && old(timeLeft) < 1 ==>
                LoadedLeaving(old(currentIndex) + 1, old(timeLeft) - 1)
                && completedDurations == if old(currentIndex) > -1
                                         then Credit(old(completedDurations), old(data.playlist)[old(currentIndex)])
                                         else old(completedDurations)
    {
      if !timerActive {
        return;
      }
      timeLeft := timeLeft - 1;
      if timeLeft < 0 {
        HandleTaskCompletion();
      }
    }

    /** `startSession` (runner.js:218-241): expand the library's tasks over the lap list; an
        empty expansion is refused with an alert, otherwise it becomes the session cache with
        fresh maps and its first entry is loaded. The runner state is left to the caller. */
    method StartSession(lapsInput: Option<nat>) returns (ok: bool)
      modifies this`data, this`sessionTaskMap, this`sessionLaps, this`sessionLapList
      modifies this`completedDurations, this`completedOccurrences, this`currentIndex, this`timeLeft
      modifies this`runnerState, this`timerActive, this`notices
      ensures !ok ==> |Expand(TaskMapOf(old(tasks)), old(lapList), LapsOf(lapsInput)).playlist| == 0
                      && notices == old(notices) + [BrowserAlert(NothingScheduled)]
                      && unchanged(this`data, this`sessionTaskMap, this`sessionLaps, this`sessionLapList,
                                   this`completedDurations, this`completedOccurrences, this`currentIndex,
                                   this`timeLeft, this`runnerState, this`timerActive)
      ensures ok ==> data == Expand(TaskMapOf(old(tasks)), old(lapList), LapsOf(lapsInput))
                     && Begun(TaskMapOf(old(tasks)), LapsOf(lapsInput))
    {
      var totalLaps := LapsOf(lapsInput);
      var taskMap := TaskMapOf(tasks);
      var playlistData := BuildVirtualPlaylist(taskMap, lapList, totalLaps);
      if |playlistData.playlist| == 0 {
        notices := notices + [BrowserAlert(NothingScheduled)];
        return false;
      }
      EntriesKnown(taskMap, lapList, totalLaps);
      Begin(playlistData, taskMap, totalLaps);
      return true;
    }

    /** A new session over `data`: its inputs recorded, both maps empty, its first entry loaded
        (runnerState, the timer and the notices as they were). */
    twostate predicate Begun(taskMap: map<TaskId, Task>, totalLaps: nat)
      reads this
    {
      sessionTaskMap == taskMap && sessionLaps == totalLaps && sessionLapList == lapList
      && completedDurations == map[] && completedOccurrences == map[]
      && 0 == currentIndex < |data.playlist| && timeLeft == data.playlist[0].calculatedDuration
      && Known() && unchanged(this`runnerState, this`timerActive, this`notices)
    }

    /** The new session cache of startSession (runner.js:228-234) and the load of its first
        entry (runner.js:236). */
    method Begin(playlistData: PlaylistData, taskMap: map<TaskId, Task>, totalLaps: nat)
      requires |playlistData.playlist| > 0
      requires forall k :: 0 <= k < |playlistData.playlist| ==> playlistData.playlist[k].taskId in taskMap
      modifies this`data, this`sessionTaskMap, this`sessionLaps, this`sessionLapList
      modifies this`completedDurations, this`completedOccurrences, this`currentIndex, this`timeLeft
      modifies this`runnerState, this`timerActive, this`notices
      ensures data == playlistData && Begun(taskMap, totalLaps)
    {
      sessionLapList := lapList;
      data, sessionTaskMap, sessionLaps := playlistData, taskMap, totalLaps;
      completedDurations, completedOccurrences := map[], map[];
      LoadTask(0);
    }

    /** The outcome of starting from STOPPED: with an empty expansion, the alert and nothing
        else; otherwise a RUNNING session on the new cache at its first entry. */
    twostate predicate Launched(lapsInput: Option<nat>)
      reads this
    {
      var expansion := Expand(TaskMapOf(old(tasks)), old(lapList), LapsOf(lapsInput));
      if |expansion.playlist| == 0 then
        notices == old(notices) + [BrowserAlert(NothingScheduled)]
        && unchanged(this`data, this`sessionTaskMap, this`sessionLaps, this`sessionLapList,
                     this`completedDurations, this`completedOccurrences, this`currentIndex,
                     this`timeLeft, this`runnerState, this`timerActive)
      else
        data == expansion && runnerState == Running && timerActive
        && sessionTaskMap == TaskMapOf(old(tasks)) && sessionLaps == LapsOf(lapsInput) && sessionLapList == old(lapList)
        && completedDurations == map[] && completedOccurrences == map[]
        && 0 == currentIndex < |data.playlist| && timeLeft == data.playlist[0].calculatedDuration
        && notices == old(notices)
    }

    /** `playPauseSession` (runner.js:243-267): pause a running session; otherwise refuse an
        empty lap list, start a session when STOPPED, and run. */
    method PlayPause(lapsInput: Option<nat>)
      requires Valid()
      modifies this`data, this`sessionTaskMap, this`sessionLaps, this`sessionLapList
      modifies this`completedDurations, this`completedOccurrences, this`currentIndex, this`timeLeft
      modifies this`runnerState, this`timerActive, this`notices
      ensures Valid()
      ensures old(runnerState) == Running ==>
                runnerState == Paused && !timerActive
                && unchanged(this`data, this`sessionTaskMap, this`sessionLaps, this`sessionLapList,
                             this`completedDurations, this`completedOccurrences, this`currentIndex,
                             this`timeLeft, this`notices)
      ensures old(runnerState) != Running && |lapList| == 0 ==>
                notices == old(notices) + [BrowserAlert(AddTasksFirst)]
                && unchanged(this`data, this`sessionTaskMap, this`sessionLaps, this`sessionLapList,
                             this`completedDurations, this`completedOccurrences, this`currentIndex,
                             this`timeLeft, this`runnerState, this`timerActive)
      ensures old(runnerState) == Paused && |lapList| > 0 ==>
                runnerState == Running && timerActive
                && unchanged(this`data, this`sessionTaskMap, this`sessionLaps, this`sessionLapList,
                             this`completedDurations, this`completedOccurrences, this`currentIndex,
                             this`timeLeft, this`notices)
      ensures old(runnerState) == Stopped && |lapList| > 0 ==> Launched(lapsInput)
    {
      if runnerState == Running {
        Pause();
        return;
      }
      if |lapList| == 0 {
        notices := notices + [BrowserAlert(AddTasksFirst)];
        return;
      }
      if runnerState == Stopped {
        Launch(lapsInput);
        return;
      }
      if currentIndex >= |data.playlist| {
        return;
      }
      Resume();
    }

    /** The STOPPED branch of `playPauseSession`: start a session and, once it has started, run
        it (its first entry is inside the playlist, so the bound check that follows the start
        never returns early). */
    method Launch(lapsInput: Option<nat>)
      requires Valid() && runnerState == Stopped
      modifies this`data, this`sessionTaskMap, this`sessionLaps, this`sessionLapList
      modifies this`completedDurations, this`completedOccurrences, this`currentIndex, this`timeLeft
      modifies this`runnerState, this`timerActive, this`notices
      ensures Valid() && Launched(lapsInput)
    {
      var ok := StartSession(lapsInput);
      if ok {
        assert data.playlist[..0] == [];
        Resume();
      }
    }

    /** `restartSession` (runner.js:300-314): clear both maps, rebuild the playlist from the
        session's task map and lap count over the current lap list, load its first entry, and
        end PAUSED (the method sets RUNNING, then calls playPauseSession, whose RUNNING branch
        pauses). Its one caller (events.js:158-167) runs it only in an active session. */
    method Restart()
      requires Valid() && runnerState != Stopped
      modifies this`data, this`sessionLapList, this`completedDurations, this`completedOccurrences
      modifies this`currentIndex, this`timeLeft, this`runnerState, this`timerActive, this`notices
      ensures data == Expand(old(sessionTaskMap), old(lapList), old(sessionLaps)) && Restarted()
    {
      var playlistData := BuildVirtualPlaylist(sessionTaskMap, lapList, sessionLaps);
      EntriesKnown(sessionTaskMap, lapList, sessionLaps);
      Reload(playlistData);
    }

    /** The state restartSession leaves over the rebuilt `data`: PAUSED and consistent, both
        maps empty, the current lap list recorded, and the first entry loaded, or, when the new
        playlist is empty, the session-complete notice with index -1. */
    twostate predicate Restarted()
      reads this
    {
      Valid() && runnerState == Paused && !timerActive && sessionLapList == lapList
      && completedDurations == map[] && completedOccurrences == map[]
      && (|data.playlist| > 0 ==>
            currentIndex == 0 && timeLeft == data.playlist[0].calculatedDuration && notices == old(notices))
      && (|data.playlist| == 0 ==>
            currentIndex == -1 && notices == old(notices) + [SessionComplete(sessionLaps)])
    }

    /** The steps of restartSession around the rebuild (runner.js:300-313), with the rebuilt
        playlist data given. */
    method Reload(playlistData: PlaylistData)
      requires Valid() && runnerState != Stopped
      requires forall k :: 0 <= k < |playlistData.playlist| ==> playlistData.playlist[k].taskId in sessionTaskMap
      modifies this`data, this`sessionLapList, this`completedDurations, this`completedOccurrences
      modifies this`currentIndex, this`timeLeft, this`runnerState, this`timerActive, this`notices
      ensures data == playlistData && Restarted()
    {
      timerActive := false;
      runnerState := Paused;
      completedDurations, completedOccurrences := map[], map[];
      sessionLapList := lapList;
      data := playlistData;
      assert Known();
      LoadTask(0);
      assert data.playlist[..0] == [];
      runnerState := Running;
      Pause();
    }

    /** `skipToLap(direction)` (runner.js:316-357), for the two directions its buttons pass. */
    method SkipToLap(direction: int)
      requires Valid() && (direction == 1 || direction == -1)
      modifies this`completedOccurrences, this`currentIndex, this`timeLeft
      modifies this`runnerState, this`timerActive, this`notices
      ensures Valid()
      ensures old(runnerState) == Stopped || |old(data.playlist)| == 0 ==> unchanged(this)
      ensures old(runnerState) != Stopped && |old(data.playlist)| > 0 ==>
                var p := old(data.playlist);
                var target := p[old(currentIndex)].lap + direction;
                if target >= sessionLaps then Loaded(|p|)
                else if target < 0 then unchanged(this)
                else if Seek(p, target, direction, sessionLaps) != -1 then Loaded(Seek(p, target, direction, sessionLaps))
                else if direction > 0 then Loaded(|p|)
                else unchanged(this)
    {
      if runnerState == Stopped || |data.playlist| == 0 {
        return;
      }
      var currentLap := data.playlist[currentIndex].lap;
      var targetLap := currentLap + direction;
      if targetLap >= sessionLaps {
        LoadTask(|data.playlist|);
        return;
      }
      if targetLap < 0 {
        return;
      }
      var next := SeekLap(data.playlist, targetLap, direction, sessionLaps);
      if next != -1 {
        JumpTo(next);
      } else if direction > 0 {
        LoadTask(|data.playlist|);
      }
    }

    /** The found-lap branch of skipToLap (runner.js:349-353): load entry `next`, with the
        interval stopped around the load when the session is RUNNING. */
    method JumpTo(next: int)
      requires Valid() && runnerState != Stopped && 0 <= next < |data.playlist|
      modifies this`completedOccurrences, this`currentIndex, this`timeLeft
      modifies this`runnerState, this`timerActive, this`notices
      ensures Valid() && Loaded(next)
    {
      var wasRunning := runnerState == Running;
      if wasRunning {
        timerActive := false;
      }
      LoadTask(next);
      if wasRunning {
        timerActive := true;
      }
    }

    /** `nextTask` (runner.js:359-361): complete the current entry early. */
    method NextTask()
      requires Valid()
      modifies this`completedDurations, this`completedOccurrences, this`currentIndex, this`timeLeft
      modifies this`runnerState, this`timerActive, this`notices
      ensures Valid()
      ensures old(runnerState) == Stopped ==> unchanged(this)
      ensures old(runnerState) != Stopped ==>
                Loaded(old(currentIndex) + 1)
                && completedDurations == if old(currentIndex) > -1
                                         then Credit(old(completedDurations), old(data.playlist)[old(currentIndex)])
                                         else old(completedDurations)
    {
      if runnerState != Stopped {
        HandleTaskCompletion();
      }
    }

    /** `prevTask` (runner.js:363-366): go back one entry, without crediting anything. */
    method PrevTask()
      requires Valid()
      modifies this`completedOccurrences, this`currentIndex, this`timeLeft
      modifies this`runnerState, this`timerActive, this`notices
      ensures Valid()
      ensures old(runnerState) == Stopped || old(currentIndex) <= 0 ==> unchanged(this)
      ensures old(runnerState) != Stopped && old(currentIndex) > 0 ==> Loaded(old(currentIndex) - 1)
    {
      if runnerState != Stopped && currentIndex > 0 {
        LoadTask(currentIndex - 1);
      }
    }
  }

  /** The counting loop of loadTaskToRunner (runner.js:48-53): occurrences of each task among
      the first `v` entries (none for a negative `v`). */
  method CountCompleted(p: seq<Entry>, v: int) returns (counts: map<TaskId, nat>)
    requires v <= |p|
    ensures counts == CountMap(p[..if v < 0 then 0 else v])
    ensures forall id :: Occ(counts, id) == Count(p[..if v < 0 then 0 else v], id)
  {
    counts := map[];
    var i := 0;
    while i < v
      invariant 0 <= i <= |p| && (v >= 0 ==> i <= v) && (v < 0 ==> i == 0)
      invariant counts == CountMap(p[..i])
    {
      var id := p[i].taskId;
      var count := if id in counts then counts[id] else 0;
      counts := counts[id := count + 1];
      assert p[..i + 1][..i] == p[..i];
      i := i + 1;
    }
    CountMapCounts(p[..if v < 0 then 0 else v]);
  }

  /** The search loop of skipToLap (runner.js:334-347). */
  method SeekLap(p: seq<Entry>, target: int, direction: int, totalLaps: nat) returns (next: int)
    requires direction == 1 || direction == -1
    ensures next == Seek(p, target, direction, totalLaps)
  {
    var lap := target;
    next := FindLap(p, lap);
    while next == -1 && 0 <= lap < totalLaps
      invariant next == FindLap(p, lap)
      invariant Seek(p, lap, direction, totalLaps) == Seek(p, target, direction, totalLaps)
      decreases if direction > 0 then totalLaps - lap else lap + 1
    {
      lap := lap + direction;
      next := FindLap(p, lap);
    }
  }

  /** The rebuilt map counts exactly the entries' occurrences. */
  lemma {:induction false} CountMapCounts(q: seq<Entry>)
    ensures forall id :: Occ(CountMap(q), id) == Count(q, id)
    decreases |q|
  {
    if |q| > 0 {
      var front := q[..|q| - 1];
      CountMapCounts(front);
      FiringsPrefix(q, |q| - 1);
      var h := Firings(q);
      assert h[..|h| - 1] == Firings(front);
      assert h[|h| - 1].fired.taskId == q[|q| - 1].taskId;
      forall id ensures Occ(CountMap(q), id) == Count(q, id) {
        assert Count(front, id) == CountF(h[..|h| - 1], id);
        assert CountF(h, id) == CountF(h[..|h| - 1], id) + (if h[|h| - 1].fired.taskId == id then 1 else 0);
        assert Count(q, id) == CountF(h, id);
      }
    }
  }

  /** The entries before index `m` hold no more firings of `id` than the whole log. */
  lemma {:induction false} CountFPrefix(h: seq<Firing>, m: nat, id: TaskId)
    requires m <= |h|
    ensures CountF(h[..m], id) <= CountF(h, id)
    decreases |h|
  {
    if m < |h| {
      CountFPrefix(h[..|h| - 1], m, id);
      assert h[..|h| - 1][..m] == h[..m];
    } else {
      assert h[..m] == h;
    }
  }

  /** The maxed-out mark (ui.js:191-196) is final: once the occurrences completed before index
      `i` reach a task's cap, no entry of that task lies at or after `i`. */
  lemma MaxedOutIsFinal(taskMap: map<TaskId, Task>, lapList: seq<TaskId>, totalLaps: nat, i: nat, id: TaskId)
    requires id in taskMap && taskMap[id].id == id
    requires i <= |Expand(taskMap, lapList, totalLaps).playlist|
    requires Ui.MaxedOut(true, taskMap[id], CountMap(Expand(taskMap, lapList, totalLaps).playlist[..i]))
    ensures var p := Expand(taskMap, lapList, totalLaps).playlist;
            forall j :: i <= j < |p| ==> p[j].taskId != id
  {
    OccurrenceCap(taskMap, lapList, totalLaps);
    NoneAfterCap(Expand(taskMap, lapList, totalLaps).playlist, i, id, taskMap[id].maxOccurrences);
  }

  /** A playlist with at most `cap` entries of `id`, of which `cap` come before `i`, has none
      from `i` on. */
  lemma NoneAfterCap(p: seq<Entry>, i: nat, id: TaskId, cap: nat)
    requires i <= |p| && Count(p, id) <= cap && Occ(CountMap(p[..i]), id) >= cap
    ensures forall j :: i <= j < |p| ==> p[j].taskId != id
  {
    var h := Firings(p);
    CountMapCounts(p[..i]);
    FiringsPrefix(p, i);
    assert CountF(h[..i], id) >= cap;
    forall j | i <= j < |p| ensures p[j].taskId != id {
      if p[j].taskId == id {
        assert h[..j + 1][..j] == h[..j];
        assert CountF(h[..j + 1], id) == CountF(h[..j], id) + 1;
        CountFPrefix(h[..j], i, id);
        assert h[..j][..i] == h[..i];
        CountFPrefix(h, j + 1, id);
        assert false;
      }
    }
  }
}
