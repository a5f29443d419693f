/** The task record, the duration bounds of constants.js, and the demo data of demo-data.js. */
module Tasks {
  import opened Wrappers

  /** Task ids are the integers handed out by `state.lastId++`. */
  type TaskId = int

  /** A task as stored in `state.tasks`. */
  datatype Task = Task(
    id: TaskId,
    title: string,
    description: string,
    categoryId: string,
    duration: int,        // base duration in seconds
    lapInterval: int,     // recur every lapInterval laps (0 reads as 1)
    growthFactor: int,    // percent change per occurrence
    maxOccurrences: int)  // 0: unlimited

  /** 23:59:59 in seconds (constants.js:18). */
  const MaxDurationSeconds: int := 23 * 3600 + 59 * 60 + 59
  /** constants.js:19. */
  const MinDurationSeconds: int := 1

  /** `new Map(tasks.map(t => [t.id, t]))`: a later task with an id already seen replaces the earlier one. */
  function TaskMapOf(tasks: seq<Task>): (m: map<TaskId, Task>)
    ensures forall id :: id in m ==> m[id].id == id && m[id] in tasks
    ensures forall i :: 0 <= i < |tasks| ==> tasks[i].id in m
    ensures forall i :: 0 <= i < |tasks| && m[tasks[i].id] != tasks[i] ==>
              exists j :: i < j < |tasks| && tasks[j].id == tasks[i].id
    decreases |tasks|
  {
    if |tasks| == 0 then map[]
    else
      var last := tasks[|tasks| - 1];
      var m := TaskMapOf(tasks[..|tasks| - 1]);
      assert forall i :: 0 <= i < |tasks| - 1 ==> tasks[..|tasks| - 1][i] == tasks[i];
      m[last.id := last]
  }

  /** `tasks.find(t => t.id === id)`: the position of the first task with that id. */
  function FindTask(tasks: seq<Task>, id: TaskId): (k: int)
    ensures -1 <= k < |tasks|
    ensures k == -1 <==> forall i :: 0 <= i < |tasks| ==> tasks[i].id != id
    ensures 0 <= k ==> tasks[k].id == id && forall i :: 0 <= i < k ==> tasks[i].id != id
    decreases |tasks|
  {
    if |tasks| == 0 then -1
    else if tasks[0].id == id then 0
    else
      var k := FindTask(tasks[1..], id);
      assert forall i :: 0 <= i < |tasks| - 1 ==> tasks[1..][i] == tasks[i + 1];
      if k == -1 then -1 else k + 1
  }

  /** `categoryMap.get(id)?.name || ""` over the category table of constants.js:3-14. */
  function CategoryName(categoryId: string): string {
    if categoryId == "cat-0" then "None"
    else if categoryId == "cat-1" then "Body"
    else if categoryId == "cat-2" then "Mind"
    else if categoryId == "cat-3" then "Work"
    else if categoryId == "cat-4" then "Personal"
    else if categoryId == "cat-5" then "Relations"
    else if categoryId == "cat-6" then "Social"
    else if categoryId == "cat-7" then "Education"
    else if categoryId == "cat-8" then "Finance"
    else if categoryId == "cat-9" then "Planning"
    else ""
  }

  /** DEMO_TASKS (demo-data.js:3-44). */
  const DemoTasks: seq<Task> := [
    Task(1, "Shower", "Take a refreshing shower.", "cat-1", 900, 99, 0, 0),
    Task(2, "Cleanup mail", "Organize and archive personal emails.", "cat-4", 60, 2, 10, 0),
    Task(3, "Breathe", "A short exercise to center yourself.", "cat-2", 30, 1, 5, 3),
    Task(4, "Code", "Focused coding session.", "cat-3", 300, 5, -10, 0)
  ]

  /** DEMO_LAP_LIST (demo-data.js:46). */
  const DemoLapList: seq<TaskId> := [1, 2, 3, 4]

  /** `tasks.reduce((max, task) => Math.max(max, task.id), 0)`. */
  function MaxId(tasks: seq<Task>): (r: int)
    ensures r >= 0
    ensures forall i :: 0 <= i < |tasks| ==> tasks[i].id <= r
    ensures r == 0 || exists i :: 0 <= i < |tasks| && tasks[i].id == r
    decreases |tasks|
  {
    if |tasks| == 0 then 0
    else
      var m := MaxId(tasks[..|tasks| - 1]);
      assert forall i :: 0 <= i < |tasks| - 1 ==> tasks[..|tasks| - 1][i] == tasks[i];
      if tasks[|tasks| - 1].id > m then tasks[|tasks| - 1].id else m
  }
}
