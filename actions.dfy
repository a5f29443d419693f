/** The library and lap-list actions of actions.js, acting on the shared state of the runner. */
module Actions {
  import opened Wrappers
  import opened Tasks
  import opened Utils
  import opened Seqs
  import opened Sorting
  import opened Runner

  // ------------------------------------------------------------ form values

  /** The characters `String.prototype.trim` strips: ECMAScript's white space and line
      terminators. */
  predicate IsSpace(c: char) {
    var n := c as int;
    (0x09 <= n <= 0x0D) || n == 0x20 || n == 0xA0 || n == 0x1680 || (0x2000 <= n <= 0x200A)
    || n == 0x2028 || n == 0x2029 || n == 0x202F || n == 0x205F || n == 0x3000 || n == 0xFEFF
  }

  /** How many white-space characters `s` starts with. */
  function Lead(s: string): (i: nat)
    ensures i <= |s|
    ensures forall k :: 0 <= k < i ==> IsSpace(s[k])
    ensures i < |s| ==> !IsSpace(s[i])
    decreases |s|
  {
    if |s| > 0 && IsSpace(s[0]) then
      var i := Lead(s[1..]);
      assert forall k :: 1 <= k < |s| ==> s[k] == s[1..][k - 1];
      i + 1
    else 0
  }

  /** How many white-space characters `s` ends with. */
  function Trail(s: string): (j: nat)
    ensures j <= |s|
    ensures forall k :: |s| - j <= k < |s| ==> IsSpace(s[k])
    ensures j < |s| ==> !IsSpace(s[|s| - 1 - j])
    decreases |s|
  {
    if |s| > 0 && IsSpace(s[|s| - 1]) then Trail(s[..|s| - 1]) + 1 else 0
  }

  /** `s.trim()`: the part of `s` between its leading and its trailing white space. It is empty
      exactly when `s` is all white space, and otherwise starts and ends with other characters. */
  function Trim(s: string): (r: string)
    ensures r == "" <==> forall k :: 0 <= k < |s| ==> IsSpace(s[k])
    ensures |r| > 0 ==> !IsSpace(r[0]) && !IsSpace(r[|r| - 1])
    ensures Lead(s) + |r| <= |s| && r == s[Lead(s)..Lead(s) + |r|]
    ensures forall k :: Lead(s) + |r| <= k < |s| ==> IsSpace(s[k])
  {
    var i, j := Lead(s), Trail(s);
    if i == |s| then "" else s[i..|s| - j]
  }

  /** Trimming twice is trimming once. */
  lemma TrimIdempotent(s: string)
    ensures Trim(Trim(s)) == Trim(s)
  {
    var r := Trim(s);
    if |r| > 0 {
      assert Lead(r) == 0 && Trail(r) == 0;
    }
  }

  /** `parseInt(value, 10) || d`, with `None` for an input that does not parse. */
  function OrDefault(parsed: Option<int>, d: int): (r: int)
    ensures parsed.Some? && parsed.value != 0 ==> r == parsed.value
    ensures parsed.None? || parsed.value == 0 ==> r == d
  {
    if parsed.None? || parsed.value == 0 then d else parsed.value
  }

  /** What the task form holds when it is submitted: the two text fields as typed, and each
      number field as `parseInt(value, 10)` reads it. */
  datatype TaskForm = TaskForm(
    title: string,
    description: string,
    minutes: Option<int>,
    seconds: Option<int>,
    lapInterval: Option<int>,
    growthFactor: Option<int>,
    maxOccurrences: Option<int>)

  /** `minutes * 60 + seconds`, each defaulting to 0 (actions.js:68-70). */
  function FormDuration(f: TaskForm): int {
    OrDefault(f.minutes, 0) * 60 + OrDefault(f.seconds, 0)
  }

  /** Why the form is refused (actions.js:63-67, 86-89), or `None` when it is accepted: the
      title is checked first, then the duration. */
  function Rejection(f: TaskForm): (r: Option<Message>)
    ensures r.None? <==> Trim(f.title) != "" && FormDuration(f) > 0
    ensures r == Some(TitleEmpty) <==> Trim(f.title) == ""
    ensures r == Some(DurationNotPositive) <==> Trim(f.title) != "" && FormDuration(f) <= 0
  {
    if Trim(f.title) == "" then Some(TitleEmpty)
    else if FormDuration(f) <= 0 then Some(DurationNotPositive)
    else None
  }

  /** The task record the form describes, with id `id` and category `categoryId`
      (actions.js:71-85, 93-99, 104-111): the fields are clamped to their ranges, a missing or
      zero number takes its default, and a number inside its range is kept. */
  function FromForm(f: TaskForm, id: TaskId, categoryId: string): (t: Task)
    ensures t.id == id && t.categoryId == categoryId && t.duration == FormDuration(f)
    ensures t.title == Trim(f.title) && t.description == Trim(f.description)
    ensures 1 <= t.lapInterval <= 99 && -99 <= t.growthFactor <= 99 && 0 <= t.maxOccurrences <= 999
    ensures f.lapInterval.None? || f.lapInterval.value == 0 ==> t.lapInterval == 1
    ensures f.growthFactor.None? || f.growthFactor.value == 0 ==> t.growthFactor == 0
    ensures f.maxOccurrences.None? || f.maxOccurrences.value == 0 ==> t.maxOccurrences == 0
    ensures f.lapInterval.Some? && 1 <= f.lapInterval.value <= 99 ==> t.lapInterval == f.lapInterval.value
    ensures f.growthFactor.Some? && -99 <= f.growthFactor.value <= 99 ==> t.growthFactor == f.growthFactor.value
    ensures f.maxOccurrences.Some? && 0 <= f.maxOccurrences.value <= 999 ==> t.maxOccurrences == f.maxOccurrences.value
  {
    Task(id, Trim(f.title), Trim(f.description), categoryId, FormDuration(f),
         Clamp(OrDefault(f.lapInterval, 1), 1, 99),
         Clamp(OrDefault(f.growthFactor, 0), -99, 99),
         Clamp(OrDefault(f.maxOccurrences, 0), 0, 999))
  }

  // ------------------------------------------------------------ the library

  /** Every task id is distinct and no larger than `lastId`, so `lastId + 1` is a fresh id. */
  predicate IdsFresh(tasks: seq<Task>, lastId: int) {
    (forall i :: 0 <= i < |tasks| ==> tasks[i].id <= lastId)
    && (forall i, j :: 0 <= i < j < |tasks| ==> tasks[i].id != tasks[j].id)
  }

  /** With distinct ids, `getTaskMap()` (actions.js:9) finds every task under its own id. */
  lemma TaskMapFindsAll(tasks: seq<Task>, lastId: int)
    requires IdsFresh(tasks, lastId)
    ensures forall i :: 0 <= i < |tasks| ==> TaskMapOf(tasks)[tasks[i].id] == tasks[i]
  {
  }

  /** `tasks.filter(t => t.id !== id)`. */
  function DropId(tasks: seq<Task>, id: TaskId): (r: seq<Task>)
    ensures forall t :: t in r <==> t in tasks && t.id != id
    ensures |r| <= |tasks|
    decreases |tasks|
  {
    if |tasks| == 0 then []
    else
      var rest := DropId(tasks[1..], id);
      assert forall t :: t in tasks <==> t == tasks[0] || t in tasks[1..];
      (if tasks[0].id == id then [] else [tasks[0]]) + rest
  }

  /** The filter works task by task: it distributes over concatenation. */
  lemma {:induction false} DropIdConcat(a: seq<Task>, b: seq<Task>, id: TaskId)
    ensures DropId(a + b, id) == DropId(a, id) + DropId(b, id)
    decreases |a|
  {
    if |a| == 0 {
      assert a + b == b;
    } else {
      assert (a + b)[0] == a[0] && (a + b)[1..] == a[1..] + b;
      DropIdConcat(a[1..], b, id);
    }
  }

  /** Filtering out an id no task has changes nothing. */
  lemma {:induction false} DropIdAbsent(tasks: seq<Task>, id: TaskId)
    requires forall i :: 0 <= i < |tasks| ==> tasks[i].id != id
    ensures DropId(tasks, id) == tasks
    decreases |tasks|
  {
    if |tasks| > 0 {
      assert forall i :: 0 <= i < |tasks| - 1 ==> tasks[1..][i] == tasks[i + 1];
      DropIdAbsent(tasks[1..], id);
      assert tasks == [tasks[0]] + tasks[1..];
    }
  }

  /** Filtering keeps the ids distinct and below `lastId`. */
  lemma {:induction false} DropIdFresh(tasks: seq<Task>, lastId: int, id: TaskId)
    requires IdsFresh(tasks, lastId)
    ensures IdsFresh(DropId(tasks, id), lastId)
    decreases |tasks|
  {
    if |tasks| > 0 {
      var first, rest := tasks[0], tasks[1..];
      TailFresh(tasks, lastId);
      DropIdFresh(rest, lastId, id);
      var d := DropId(rest, id);
      forall k | 0 <= k < |d| ensures d[k].id != first.id {
        assert d[k] in rest;
      }
      if first.id != id {
        ConsFresh(first, d, lastId);
      }
    }
  }

  /** The tasks after the first have fresh ids, none of them the first task's. */
  lemma TailFresh(tasks: seq<Task>, lastId: int)
    requires |tasks| > 0 && IdsFresh(tasks, lastId)
    ensures IdsFresh(tasks[1..], lastId)
    ensures forall t :: t in tasks[1..] ==> t.id != tasks[0].id
  {
    var rest := tasks[1..];
    assert forall i :: 0 <= i < |rest| ==> rest[i] == tasks[i + 1];
    forall i, j | 0 <= i < j < |rest| ensures rest[i].id != rest[j].id {
      assert rest[i] == tasks[i + 1] && rest[j] == tasks[j + 1];
    }
  }

  /** A task under `lastId + 1` can be appended to tasks with fresh ids. */
  lemma AppendFresh(tasks: seq<Task>, lastId: int, t: Task)
    requires IdsFresh(tasks, lastId) && t.id == lastId + 1
    ensures IdsFresh(tasks + [t], t.id)
  {
    var r := tasks + [t];
    assert forall i :: 0 <= i < |tasks| ==> r[i] == tasks[i];
  }

  /** Replacing a task by one with its id keeps the ids fresh. */
  lemma ReplaceFresh(tasks: seq<Task>, lastId: int, k: int, t: Task)
    requires IdsFresh(tasks, lastId) && 0 <= k < |tasks| && t.id == tasks[k].id
    ensures IdsFresh(tasks[k := t], lastId)
  {
    var r := tasks[k := t];
    assert forall i :: 0 <= i < |tasks| ==> r[i].id == tasks[i].id;
  }

  /** A task whose id is fresh and differs from every id of `d` can go in front of `d`. */
  lemma ConsFresh(first: Task, d: seq<Task>, lastId: int)
    requires IdsFresh(d, lastId) && first.id <= lastId
    requires forall k :: 0 <= k < |d| ==> d[k].id != first.id
    ensures IdsFresh([first] + d, lastId)
  {
    var r := [first] + d;
    assert forall i :: 0 < i < |r| ==> r[i] == d[i - 1];
    forall i, j | 0 <= i < j < |r| ensures r[i].id != r[j].id {
      if i > 0 {
        assert r[i] == d[i - 1];
      }
    }
  }

  /** `duplicateTask`'s copy (actions.js:147-150): the same task under the new id, with a zero
      lap interval read as 1. */
  function CopyOf(t: Task, newId: TaskId): (c: Task)
    ensures c.id == newId && c.lapInterval != 0
    ensures c == FromStorage(t).(id := newId)
  {
    t.(id := newId, lapInterval := if t.lapInterval == 0 then 1 else t.lapInterval)
  }

  /** `addTaskToLap`'s change (actions.js:161-162): append `id` unless it is already listed. */
  function Added(lapList: seq<TaskId>, id: TaskId): (r: seq<TaskId>)
    ensures id in r
    ensures NoDup(lapList) ==> NoDup(r)
    ensures id in lapList ==> r == lapList
    ensures id !in lapList ==> |r| == |lapList| + 1 && r[..|lapList|] == lapList && r[|lapList|] == id
  {
    if id in lapList then lapList
    else
      var r := lapList + [id];
      assert r[..|lapList|] == lapList;
      r
  }

  /** The order `updateSort` sets (actions.js:45-48): clicking the sorted field again while
      ascending turns it to descending; every other click sorts ascending. */
  function NextOrder(currentField: string, currentOrder: SortOrder, field: string): (o: SortOrder)
    ensures o == Desc <==> currentField == field && currentOrder == Asc
  {
    if currentField == field && currentOrder == Asc then Desc else Asc
  }

  /** Clicking one header over and over alternates the order, starting at ascending. */
  lemma ClicksAlternate(currentField: string, currentOrder: SortOrder, field: string)
    ensures var first := NextOrder(currentField, currentOrder, field);
            var second := NextOrder(field, first, field);
            (currentField != field ==> first == Asc && second == Desc)
            && NextOrder(field, second, field) == first
  {
  }

  // ------------------------------------------------------------ the actions

  /** `handleTaskFormSubmit` (actions.js:62-117): a refused form raises its validation dialog
      and changes nothing; an accepted one replaces the fields of the task being edited (its
      id is kept; an id no task has changes nothing) or appends a new task under `lastId + 1`,
      and then resets the form. */
  method SubmitTaskForm(s: State, f: TaskForm)
    modifies s`tasks, s`lastId, s`editingTaskId, s`selectedCategoryId, s`notices
    ensures Rejection(f).Some? ==>
              s.notices == old(s.notices) + [Dialog(Validation, Rejection(f).value)]
              && unchanged(s`tasks, s`lastId, s`editingTaskId, s`selectedCategoryId)
    ensures Rejection(f).None? ==>
              s.notices == old(s.notices) && s.editingTaskId == None && s.selectedCategoryId == "cat-0"
    ensures Rejection(f).None? && old(s.editingTaskId).None? ==>
              s.lastId == old(s.lastId) + 1
              && s.tasks == old(s.tasks) + [FromForm(f, s.lastId, old(s.selectedCategoryId))]
    ensures Rejection(f).None? && old(s.editingTaskId).Some? ==>
              var k := FindTask(old(s.tasks), old(s.editingTaskId).value);
              s.lastId == old(s.lastId)
              && s.tasks == if k == -1 then old(s.tasks)
                            else old(s.tasks)[k := FromForm(f, old(s.tasks)[k].id, old(s.selectedCategoryId))]
    ensures old(IdsFresh(s.tasks, s.lastId)) ==> IdsFresh(s.tasks, s.lastId)
  {
    var title := Trim(f.title);
    if title == "" {
      s.notices := s.notices + [Dialog(Validation, TitleEmpty)];
      return;
    }
    var minutes := OrDefault(f.minutes, 0);
    var seconds := OrDefault(f.seconds, 0);
    var totalDuration := minutes * 60 + seconds;
    var lapInterval := Clamp(OrDefault(f.lapInterval, 1), 1, 99);
    var growthFactor := Clamp(OrDefault(f.growthFactor, 0), -99, 99);
    var maxOccurrences := Clamp(OrDefault(f.maxOccurrences, 0), 0, 999);
    if totalDuration <= 0 {
      s.notices := s.notices + [Dialog(Validation, DurationNotPositive)];
      return;
    }
    if s.editingTaskId.Some? {
      var k := FindTask(s.tasks, s.editingTaskId.value);
      if k != -1 {
        var task := s.tasks[k];
        task := task.(title := title, description := Trim(f.description), categoryId := s.selectedCategoryId,
                      duration := totalDuration, lapInterval := lapInterval, growthFactor := growthFactor,
                      maxOccurrences := maxOccurrences);
        if IdsFresh(s.tasks, s.lastId) {
          ReplaceFresh(s.tasks, s.lastId, k, task);
        }
        s.tasks := s.tasks[k := task];
      }
    } else {
      var task := Task(s.lastId + 1, title, Trim(f.description), s.selectedCategoryId, totalDuration,
                       lapInterval, growthFactor, maxOccurrences);
      if IdsFresh(s.tasks, s.lastId) {
        AppendFresh(s.tasks, s.lastId, task);
      }
      s.lastId := s.lastId + 1;
      s.tasks := s.tasks + [task];
    }
    s.editingTaskId := None;
    s.selectedCategoryId := "cat-0";
  }

  /** `loadTaskIntoForm` (actions.js:119-130): refused in an active session; otherwise an
      existing task becomes the one being edited and its category is selected. */
  method LoadTaskIntoForm(s: State, id: TaskId)
    modifies s`editingTaskId, s`selectedCategoryId, s`notices
    ensures old(s.IsSessionActive()) ==>
              s.notices == old(s.notices) + [Dialog(ActionBlocked, EditBlocked)]
              && unchanged(s`editingTaskId, s`selectedCategoryId)
    ensures !old(s.IsSessionActive()) ==>
              var k := FindTask(s.tasks, id);
              s.notices == old(s.notices)
              && if k == -1 then unchanged(s`editingTaskId, s`selectedCategoryId)
                 else s.editingTaskId == Some(id) && s.selectedCategoryId == s.tasks[k].categoryId
  {
    if s.IsSessionActive() {
      s.notices := s.notices + [Dialog(ActionBlocked, EditBlocked)];
      return;
    }
    var k := FindTask(s.tasks, id);
    if k == -1 {
      return;
    }
    s.editingTaskId := Some(id);
    s.selectedCategoryId := s.tasks[k].categoryId;
  }

  /** `deleteTask` (actions.js:132-141): refused in an active session; otherwise the task
      leaves both the library and the lap list. */
  method DeleteTask(s: State, id: TaskId)
    modifies s`tasks, s`lapList, s`notices
    ensures old(s.IsSessionActive()) ==>
              s.notices == old(s.notices) + [Dialog(ActionBlocked, DeleteBlocked)]
              && unchanged(s`tasks, s`lapList)
    ensures !old(s.IsSessionActive()) ==>
              s.tasks == DropId(old(s.tasks), id) && s.lapList == Without(old(s.lapList), id)
              && s.notices == old(s.notices)
    ensures old(IdsFresh(s.tasks, s.lastId)) ==> IdsFresh(s.tasks, s.lastId)
    ensures old(NoDup(s.lapList)) ==> NoDup(s.lapList)
  {
    if s.IsSessionActive() {
      s.notices := s.notices + [Dialog(ActionBlocked, DeleteBlocked)];
      return;
    }
    if IdsFresh(s.tasks, s.lastId) {
      DropIdFresh(s.tasks, s.lastId, id);
    }
    if NoDup(s.lapList) {
      WithoutNoDup(s.lapList, id);
    }
    s.tasks := DropId(s.tasks, id);
    s.lapList := Without(s.lapList, id);
  }

  /** `duplicateTask` (actions.js:143-154), which has no session guard: the copy of the
      first task with that id is appended under `lastId + 1`; an unknown id changes nothing. */
  method DuplicateTask(s: State, id: TaskId)
    modifies s`tasks, s`lastId
    ensures var k := FindTask(old(s.tasks), id);
            if k == -1 then unchanged(s`tasks, s`lastId)
            else s.lastId == old(s.lastId) + 1 && s.tasks == old(s.tasks) + [CopyOf(old(s.tasks)[k], s.lastId)]
    ensures old(IdsFresh(s.tasks, s.lastId)) ==> IdsFresh(s.tasks, s.lastId)
  {
    var k := FindTask(s.tasks, id);
    if k == -1 {
      return;
    }
    s.lastId := s.lastId + 1;
    var copy := s.tasks[k].(id := s.lastId);
    if copy.lapInterval == 0 {
      copy := copy.(lapInterval := 1);
    }
    s.tasks := s.tasks + [copy];
  }

  /** `addTaskToLap` (actions.js:156-166): refused in an active session; otherwise the id is
      appended when it is not listed yet, so the lap list stays free of repeats. */
  method AddTaskToLap(s: State, id: TaskId)
    modifies s`lapList, s`notices
    ensures old(s.IsSessionActive()) ==>
              s.notices == old(s.notices) + [Dialog(ActionBlocked, PlaylistLocked)] && unchanged(s`lapList)
    ensures !old(s.IsSessionActive()) ==> s.lapList == Added(old(s.lapList), id) && s.notices == old(s.notices)
  {
    if s.IsSessionActive() {
      s.notices := s.notices + [Dialog(ActionBlocked, PlaylistLocked)];
      return;
    }
    if id !in s.lapList {
      s.lapList := s.lapList + [id];
    }
  }

  /** `removeTaskFromLap` (actions.js:168-176): every occurrence of the id leaves the lap list.
      With the guard read as "not STOPPED", the refusal in an active session still shows
      nothing: its alert passes a `DOM` name the module does not define (actions.js:170), so
      the call throws before the alert and nothing changes. (As written the guard's own call
      throws first; see `AsWritten.DeleteTaskAsWritten`.) */
  method RemoveTaskFromLap(s: State, id: TaskId)
    modifies s`lapList
    ensures old(s.IsSessionActive()) ==> unchanged(s`lapList)
    ensures !old(s.IsSessionActive()) ==> s.lapList == Without(old(s.lapList), id)
    ensures old(NoDup(s.lapList)) ==> NoDup(s.lapList)
  {
    if s.IsSessionActive() {
      return;
    }
    if NoDup(s.lapList) {
      WithoutNoDup(s.lapList, id);
    }
    s.lapList := Without(s.lapList, id);
  }

  /** `isModificationAllowed` (actions.js:178-184): false, with an information dialog, in an
      active session. */
  method IsModificationAllowed(s: State, msg: Message) returns (allowed: bool)
    modifies s`notices
    ensures allowed == !s.IsSessionActive()
    ensures s.notices == old(s.notices) + (if allowed then [] else [Dialog(Info, msg)])
  {
    if s.IsSessionActive() {
      s.notices := s.notices + [Dialog(Info, msg)];
      return false;
    }
    return true;
  }

  /** `updateSort` (actions.js:44-53): the order follows `NextOrder` and the field is the one
      clicked. */
  method UpdateSort(s: State, field: string)
    modifies s`sortField, s`sortOrder
    ensures s.sortOrder == NextOrder(old(s.sortField), old(s.sortOrder), field)
    ensures s.sortField == field
  {
    s.sortOrder := if s.sortField == field && s.sortOrder == Asc then Desc else Asc;
    s.sortField := field;
  }

  /** What `renderAll` lists (actions.js:38): the library sorted by the current sort state. */
  function SortedTasks(tasks: seq<Task>, sortField: string, sortOrder: SortOrder, rank: string -> int): (r: seq<Task>)
    ensures multiset(r) == multiset(tasks)
    ensures forall i, j :: 0 <= i < j < |r| ==>
              SignedKey(r[i], FieldOf(sortField), sortOrder, rank) <= SignedKey(r[j], FieldOf(sortField), sortOrder, rank)
  {
    SortTasksCorrect(tasks, FieldOf(sortField), sortOrder, rank);
    SortTasks(tasks, FieldOf(sortField), sortOrder, rank)
  }
}
