/** The state-changing event handlers of events.js: lap-list reordering, drag and drop, the
    number steppers, and the bulk delete, add, clear, reset and restart buttons. */
module Events {
  import opened Wrappers
  import opened Tasks
  import opened Utils
  import opened Seqs
  import opened Runner
  import opened Actions
  import opened Playlist

  // ------------------------------------------------------------ moving within the lap list

  /** The `data-action` of a lap-list move button. */
  datatype MoveAction = Top | Bottom | Other

  /** Which button of a lap-list row was clicked, if any (events.js:81-97). */
  datatype LapButton = NoButton | RemoveButton | MoveButton(action: MoveAction)

  /** `indexOf` followed by `splice(idx, 1)`: the list without the first copy of `x`. */
  function Lifted(l: seq<TaskId>, x: TaskId): seq<TaskId> {
    if x in l then RemoveAt(l, IndexOf(l, x)) else l
  }

  /** The move handler's change (events.js:89-93): an id that is not listed changes nothing;
      otherwise it is taken out and put back first ("top") or last ("bottom"), and any other
      action leaves it out. */
  function Moved(l: seq<TaskId>, id: TaskId, action: MoveAction): seq<TaskId> {
    if id !in l then l
    else if action == Top then [id] + Lifted(l, id)
    else if action == Bottom then Lifted(l, id) + [id]
    else Lifted(l, id)
  }

  /** Lifting `x` out leaves every other id where it was, relative to the rest, and a list
      without repeats loses its one copy of `x`. */
  lemma LiftedFacts(l: seq<TaskId>, x: TaskId)
    ensures Without(Lifted(l, x), x) == Without(l, x)
    ensures x in l ==> multiset(Lifted(l, x)) + multiset{x} == multiset(l)
    ensures NoDup(l) ==> NoDup(Lifted(l, x)) && x !in Lifted(l, x)
  {
    if x in l {
      var k := IndexOf(l, x);
      RemoveAtWithout(l, k);
      if NoDup(l) {
        NoDupRemoveAt(l, k);
      }
    }
  }

  /** Inserting `x` anywhere leaves the other ids in their order. */
  lemma InsertAtWithout(m: seq<TaskId>, k: nat, x: TaskId)
    requires k <= |m|
    ensures Without(InsertAt(m, k, x), x) == Without(m, x)
  {
    var a, b := m[..k], m[k..];
    assert InsertAt(m, k, x) == a + ([x] + b);
    assert m == a + b;
    WithoutConcat(a, [x] + b, x);
    WithoutConcat([x], b, x);
    WithoutConcat(a, b, x);
    WithoutSelf(x);
    assert Without([x] + b, x) == Without(b, x);
  }

  /** Lifting `x` out and inserting it back at position `p`: the ids are kept (with `x` added
      when it was not listed), the other ids stay in their order, and no repeat is created. */
  lemma InsertLifted(l: seq<TaskId>, x: TaskId, p: nat)
    requires p <= |Lifted(l, x)|
    ensures multiset(InsertAt(Lifted(l, x), p, x)) == multiset(l) + (if x in l then multiset{} else multiset{x})
    ensures Without(InsertAt(Lifted(l, x), p, x), x) == Without(l, x)
    ensures NoDup(l) ==> NoDup(InsertAt(Lifted(l, x), p, x))
  {
    LiftedFacts(l, x);
    InsertAtWithout(Lifted(l, x), p, x);
    if NoDup(l) {
      NoDupInsertAt(Lifted(l, x), p, x);
    }
  }

  /** "top" and "bottom" put the id first or last and keep the list a permutation of itself,
      with the other ids in their old order and no repeat created; an unlisted id changes
      nothing. */
  lemma MoveCorrect(l: seq<TaskId>, id: TaskId, action: MoveAction)
    requires action != Other
    ensures multiset(Moved(l, id, action)) == multiset(l)
    ensures Without(Moved(l, id, action), id) == Without(l, id)
    ensures NoDup(l) ==> NoDup(Moved(l, id, action))
    ensures id !in l ==> Moved(l, id, action) == l
    ensures id in l && action == Top ==> Moved(l, id, action)[0] == id
    ensures id in l && action == Bottom ==> Moved(l, id, action)[|l| - 1] == id
  {
    if id in l {
      var m := Lifted(l, id);
      LiftedFacts(l, id);
      if action == Top {
        InsertLifted(l, id, 0);
        InsertAtFront(m, id);
      } else {
        InsertLifted(l, id, |m|);
        InsertAtBack(m, id);
      }
    }
  }

  /** The click handler of the lap list (events.js:81-97): in an active session, or with no
      button hit, nothing changes; the remove button removes the id (actions.js:168-176); a
      move button moves it. */
  method LapListClick(s: State, id: TaskId, button: LapButton)
    modifies s`lapList
    ensures old(s.IsSessionActive()) || button == NoButton ==> unchanged(s`lapList)
    ensures !old(s.IsSessionActive()) && button == RemoveButton ==> s.lapList == Without(old(s.lapList), id)
    ensures !old(s.IsSessionActive()) && button.MoveButton? ==> s.lapList == Moved(old(s.lapList), id, button.action)
  {
    if button == NoButton || s.IsSessionActive() {
      return;
    }
    if button == RemoveButton {
      RemoveTaskFromLap(s, id);
    } else {
      var idx := IndexOf(s.lapList, id);
      if idx == -1 {
        return;
      }
      s.lapList := RemoveAt(s.lapList, idx);
      if button.action == Top {
        s.lapList := [id] + s.lapList;
      } else if button.action == Bottom {
        s.lapList := s.lapList + [id];
      }
    }
  }

  // ------------------------------------------------------------ drag and drop

  /** The splice position of `indexOf` result `k` in a list of length `n`: `splice(-1, 0, x)`
      inserts before the last element (or at 0 in an empty list). */
  function SplicePosition(k: int, n: nat): (p: nat)
    requires -1 <= k < n
    ensures p <= n
  {
    if k >= 0 then k else if n == 0 then 0 else n - 1
  }

  /** The drop handler's change (events.js:136-142): the dragged id is lifted out, then put
      directly before the id of the element it was dropped above, or appended when there is
      none. The element above is found on the page, so its id is an input here. */
  function Dropped(l: seq<TaskId>, x: TaskId, after: Option<TaskId>): seq<TaskId> {
    var m := Lifted(l, x);
    match after
      case None => m + [x]
      case Some(a) => InsertAt(m, SplicePosition(IndexOf(m, a), |m|), x)
  }

  /** A drop keeps the list's ids (adding the dragged one when it was not listed), leaves the
      other ids in their order, creates no repeat, and lands the dragged id right before the
      target, or last. */
  lemma DropCorrect(l: seq<TaskId>, x: TaskId, after: Option<TaskId>)
    ensures var r := Dropped(l, x, after);
            multiset(r) == multiset(l) + (if x in l then multiset{} else multiset{x})
            && Without(r, x) == Without(l, x)
            && (NoDup(l) ==> NoDup(r))
            && (after.None? ==> r[|r| - 1] == x)
            && (after.Some? && after.value in Lifted(l, x) ==>
                  var k := IndexOf(Lifted(l, x), after.value);
                  r[k] == x && r[k + 1] == after.value)
  {
    var m := Lifted(l, x);
    var p := match after case None => |m| case Some(a) => SplicePosition(IndexOf(m, a), |m|);
    InsertLifted(l, x, p);
    assert Dropped(l, x, after) == InsertAt(m, p, x);
  }

  /** The drop handler (events.js:128-145): nothing changes in an active session or when no
      drag is under way. */
  method Drop(s: State, after: Option<TaskId>)
    modifies s`lapList
    ensures old(s.IsSessionActive()) || s.draggedItemId.None? ==> unchanged(s`lapList)
    ensures !old(s.IsSessionActive()) && s.draggedItemId.Some? ==>
              s.lapList == Dropped(old(s.lapList), s.draggedItemId.value, after)
  {
    if s.IsSessionActive() || s.draggedItemId.None? {
      return;
    }
    var dragged := s.draggedItemId.value;
    var list := Lifted(s.lapList, dragged);
    if after.Some? {
      var newIndex := IndexOf(list, after.value);
      list := InsertAt(list, SplicePosition(newIndex, |list|), dragged);
    } else {
      list := list + [dragged];
    }
    s.lapList := list;
  }

  /** The dragstart handler (events.js:99-105): outside a session the row's id is remembered. */
  method DragStart(s: State, id: TaskId)
    modifies s`draggedItemId
    ensures s.draggedItemId == if old(s.IsSessionActive()) then old(s.draggedItemId) else Some(id)
  {
    if s.IsSessionActive() {
      return;
    }
    s.draggedItemId := Some(id);
  }

  /** The dragend handler (events.js:107-111), which has no session guard. */
  method DragEnd(s: State)
    modifies s`draggedItemId
    ensures s.draggedItemId == None
  {
    s.draggedItemId := None;
  }

  // ------------------------------------------------------------ steppers

  /** The stepper's `update` (events.js:279-284) on the `parseInt` readings of the input's
      value, minimum and maximum: the value (0 when unreadable) plus the step, kept at or above
      the minimum (0 when missing) and, unless the maximum is missing or 0 (read as no
      limit), at or below the maximum. */
  function Stepper(value: Option<int>, step: int, min: Option<int>, max: Option<int>): (r: int)
    ensures var v, lo := OrDefault(value, 0) + step, OrDefault(min, 0);
            var bounded := max.Some? && max.value != 0;
            r >= lo
            && (bounded && lo <= max.value ==> r <= max.value)
            && (lo <= v && (!bounded || v <= max.value) ==> r == v)
            && (v < lo ==> r == lo)
            && (bounded && lo <= max.value < v ==> r == max.value)
  {
    var v := OrDefault(value, 0) + step;
    var lo := OrDefault(min, 0);
    if max.None? || max.value == 0 then (if lo > v then lo else v)
    else Clamp(v, lo, max.value)
  }

  /** Holding a stepper repeats `update`, reading back what it wrote; `n` repeats from inside
      the range move the value `n` steps, stopping at the bounds. */
  function Held(value: int, step: int, min: Option<int>, max: Option<int>, n: nat): int
    decreases n
  {
    if n == 0 then value else Held(Stepper(Some(value), step, min, max), step, min, max, n - 1)
  }

  /** Holding an up-step from within the range climbs by the step and stops at the maximum,
      for any minimum (the growth stepper's is -99) and any maximum but 0, which the stepper
      reads as no maximum. */
  lemma {:induction false} HeldClimbs(value: int, step: int, lo: int, hi: int, n: nat)
    requires 0 < step && lo <= value <= hi && hi != 0
    ensures Held(value, step, Some(lo), Some(hi), n) == if value + n * step <= hi then value + n * step else hi
    decreases n
  {
    if n > 0 {
      var next := Stepper(Some(value), step, Some(lo), Some(hi));
      HeldClimbs(next, step, lo, hi, n - 1);
      if value + step <= hi {
        assert next == value + step;
        assert next + (n - 1) * step == value + n * step;
      } else {
        assert next == hi;
        assert value + n * step > hi by {
          assert n * step >= step;
        }
      }
    }
  }

  // ------------------------------------------------------------ bulk buttons

  /** `state.tasks.forEach(t => addTaskToLap(t.id))`: each task's id is appended unless listed. */
  function AddedAll(l: seq<TaskId>, tasks: seq<Task>): seq<TaskId>
    decreases |tasks|
  {
    if |tasks| == 0 then l else Added(AddedAll(l, tasks[..|tasks| - 1]), tasks[|tasks| - 1].id)
  }

  /** "Add all" keeps the lap list in front, adds every task's id, adds nothing else, and
      creates no repeat. */
  lemma {:induction false} AddedAllCorrect(l: seq<TaskId>, tasks: seq<Task>)
    ensures var r := AddedAll(l, tasks);
            |l| <= |r| && r[..|l|] == l
            && (forall i :: 0 <= i < |tasks| ==> tasks[i].id in r)
            && (forall x :: x in r ==> x in l || exists i :: 0 <= i < |tasks| && tasks[i].id == x)
            && (NoDup(l) ==> NoDup(r))
    decreases |tasks|
  {
    if |tasks| > 0 {
      var front, last := tasks[..|tasks| - 1], tasks[|tasks| - 1];
      AddedAllCorrect(l, front);
      var q := AddedAll(l, front);
      var r := Added(q, last.id);
      assert r[..|q|] == q;
      assert r[..|l|] == q[..|l|];
      forall i | 0 <= i < |tasks| ensures tasks[i].id in r {
        if i < |tasks| - 1 {
          assert tasks[i] == front[i];
        }
      }
      forall x | x in r ensures x in l || exists i :: 0 <= i < |tasks| && tasks[i].id == x {
        if x in q {
          if x !in l {
            var i :| 0 <= i < |front| && front[i].id == x;
            assert tasks[i] == front[i];
          }
        } else {
          assert tasks[|tasks| - 1].id == x;
        }
      }
    }
  }

  /** The "delete all" button (events.js:177-195) with the confirmation's answer: refused with
      an information dialog in an active session; once confirmed, the library and the lap
      list are emptied and ids start again from 0. */
  method DeleteAll(s: State, confirmed: bool)
    modifies s`tasks, s`lapList, s`lastId, s`notices
    ensures s.notices == old(s.notices) + (if old(s.IsSessionActive()) then [Dialog(Info, StopToDeleteAll)] else [])
    ensures !old(s.IsSessionActive()) && confirmed ==> s.tasks == [] && s.lapList == [] && s.lastId == 0
    ensures old(s.IsSessionActive()) || !confirmed ==> unchanged(s`tasks, s`lapList, s`lastId)
  {
    var allowed := IsModificationAllowed(s, StopToDeleteAll);
    if !allowed || !confirmed {
      return;
    }
    s.tasks := [];
    s.lapList := [];
    s.lastId := 0;
  }

  /** The "add all" button (events.js:197-201): refused with an information dialog in an
      active session; otherwise every task of the library is added in turn. */
  method AddAll(s: State)
    modifies s`lapList, s`notices
    ensures s.notices == old(s.notices) + (if old(s.IsSessionActive()) then [Dialog(Info, StopToAddAll)] else [])
    ensures s.lapList == if old(s.IsSessionActive()) then old(s.lapList) else AddedAll(old(s.lapList), s.tasks)
  {
    var allowed := IsModificationAllowed(s, StopToAddAll);
    if !allowed {
      return;
    }
    var i := 0;
    while i < |s.tasks|
      invariant 0 <= i <= |s.tasks|
      invariant s.lapList == AddedAll(old(s.lapList), s.tasks[..i])
      invariant s.notices == old(s.notices) && !s.IsSessionActive()
    {
      AddTaskToLap(s, s.tasks[i].id);
      assert s.tasks[..i + 1][..i] == s.tasks[..i];
      i := i + 1;
    }
    assert s.tasks[..i] == s.tasks;
  }

  /** The "clear playlist" button (events.js:203-219): refused with an information dialog in
      an active session; once confirmed, the lap list is emptied. */
  method ClearLapList(s: State, confirmed: bool)
    modifies s`lapList, s`notices
    ensures s.notices == old(s.notices) + (if old(s.IsSessionActive()) then [Dialog(Info, StopToClear)] else [])
    ensures s.lapList == if !old(s.IsSessionActive()) && confirmed then [] else old(s.lapList)
  {
    var allowed := IsModificationAllowed(s, StopToClear);
    if !allowed || !confirmed {
      return;
    }
    s.lapList := [];
  }

  /** The largest demo id is 4, and the demo ids are distinct. */
  lemma DemoIdsFresh()
    ensures MaxId(DemoTasks) == 4 && IdsFresh(DemoTasks, 4)
  {
    assert DemoTasks[3].id == 4;
    assert forall i :: 0 <= i < |DemoTasks| ==> DemoTasks[i].id == i + 1;
  }

  /** The demo lap list holds distinct ids, each the id of a demo task. */
  lemma DemoLapListKnown()
    ensures NoDup(DemoLapList) && forall id :: id in DemoLapList ==> id in TaskMapOf(DemoTasks)
  {
    assert forall i :: 0 <= i < |DemoLapList| ==> DemoLapList[i] == DemoTasks[i].id;
  }

  /** The "reset app" button (events.js:221-239), which has no session guard: once confirmed,
      the session is stopped without the completion notice and the demo library and lap list
      are loaded, with `lastId` the largest demo id, so ids stay fresh and the lap list free of
      repeats. */
  method ResetApp(s: State, confirmed: bool)
    modifies s`tasks, s`lapList, s`lastId, s`runnerState, s`timerActive, s`currentIndex, s`notices
    ensures !confirmed ==> unchanged(s`tasks, s`lapList, s`lastId, s`runnerState, s`timerActive, s`currentIndex, s`notices)
    ensures confirmed ==>
              s.tasks == DemoTasks && s.lapList == DemoLapList && s.lastId == MaxId(DemoTasks)
              && s.runnerState == Stopped && !s.timerActive && s.currentIndex == -1 && s.notices == old(s.notices)
    ensures confirmed ==> s.lastId == 4 && IdsFresh(s.tasks, s.lastId) && NoDup(s.lapList)
    ensures old(s.Valid()) ==> s.Valid()
  {
    if !confirmed {
      return;
    }
    DemoIdsFresh();
    DemoLapListKnown();
    s.Stop(false);
    s.tasks := DemoTasks;
    s.lapList := DemoLapList;
    s.lastId := MaxId(DemoTasks);
  }

  /** The restart button (events.js:158-167): outside a session nothing happens; once
      confirmed, the session is restarted. */
  method RestartClicked(s: State, confirmed: bool)
    requires s.Valid()
    modifies s`data, s`sessionLapList, s`completedDurations, s`completedOccurrences
    modifies s`currentIndex, s`timeLeft, s`runnerState, s`timerActive, s`notices
    ensures s.Valid()
    ensures !old(s.IsSessionActive()) || !confirmed ==> unchanged(s)
    ensures old(s.IsSessionActive()) && confirmed ==>
              s.data == Expand(old(s.sessionTaskMap), old(s.lapList), old(s.sessionLaps)) && s.Restarted()
  {
    if !s.IsSessionActive() || !confirmed {
      return;
    }
    s.Restart();
  }
}
