/** `sortTasks` (actions.js:11-35): a copy of the task list, stably sorted by the field and
    order of the sort state. */
module Sorting {
  import opened Tasks

  datatype SortField = ById | ByTitle | ByDuration | ByCategory | ByLapInterval | ByMaxOccurrences | ByGrowthFactor
  datatype SortOrder = Asc | Desc

  /** The comparator's field, from the name a sort header carries; an unknown name falls to the
      comparator's default branch, which compares ids. */
  function FieldOf(name: string): SortField {
    if name == "title" then ByTitle
    else if name == "duration" then ByDuration
    else if name == "category" then ByCategory
    else if name == "lapInterval" then ByLapInterval
    else if name == "maxOccurrences" then ByMaxOccurrences
    else if name == "growthFactor" then ByGrowthFactor
    else ById
  }

  /** What the comparator subtracts. Text fields are compared by `localeCompare`, modelled by
      `rank`, a collation key for strings. */
  function Key(t: Task, field: SortField, rank: string -> int): int {
    match field
      case ById => t.id
      case ByTitle => rank(t.title)
      case ByDuration => t.duration
      case ByCategory => rank(CategoryName(t.categoryId))
      case ByLapInterval => if t.lapInterval == 0 then 1 else t.lapInterval
      case ByMaxOccurrences => t.maxOccurrences
      case ByGrowthFactor => t.growthFactor
  }

  /** Multiplying the comparator by -1 sorts by the negated key. */
  function SignedKey(t: Task, field: SortField, order: SortOrder, rank: string -> int): int {
    if order == Asc then Key(t, field, rank) else -Key(t, field, rank)
  }

  /** Puts `x` before the first element whose key is not smaller: ahead of equal keys, since
      `x` came first in the input. */
  function Insert(x: Task, s: seq<Task>, key: Task -> int): seq<Task>
    decreases |s|
  {
    if |s| == 0 then [x]
    else if key(x) <= key(s[0]) then [x] + s
    else [s[0]] + Insert(x, s[1..], key)
  }

  /** A stable sort by `key` (Array.prototype.sort is stable). */
  function Sort(s: seq<Task>, key: Task -> int): seq<Task>
    decreases |s|
  {
    if |s| == 0 then [] else Insert(s[0], Sort(s[1..], key), key)
  }

  /** The sort key of a sort state. */
  function KeyOf(field: SortField, order: SortOrder, rank: string -> int): Task -> int {
    t => SignedKey(t, field, order, rank)
  }

  function SortTasks(list: seq<Task>, field: SortField, order: SortOrder, rank: string -> int): seq<Task> {
    Sort(list, KeyOf(field, order, rank))
  }

  predicate Sorted(s: seq<Task>, key: Task -> int) {
    forall i, j :: 0 <= i < j < |s| ==> key(s[i]) <= key(s[j])
  }

  /** The elements of `s` whose key is `v`, in their order in `s`. */
  function WithKey(s: seq<Task>, key: Task -> int, v: int): seq<Task>
    decreases |s|
  {
    if |s| == 0 then [] else (if key(s[0]) == v then [s[0]] else []) + WithKey(s[1..], key, v)
  }

  lemma {:induction false} InsertPermutes(x: Task, s: seq<Task>, key: Task -> int)
    ensures multiset(Insert(x, s, key)) == multiset(s) + multiset{x}
    decreases |s|
  {
    if |s| > 0 && key(x) > key(s[0]) {
      InsertPermutes(x, s[1..], key);
      assert s == [s[0]] + s[1..];
    }
  }

  /** `WithKey` looks at the head, then at the rest. */
  lemma WithKeyCons(h: Task, t: seq<Task>, key: Task -> int, v: int)
    ensures WithKey([h] + t, key, v) == (if key(h) == v then [h] else []) + WithKey(t, key, v)
  {
    assert ([h] + t)[0] == h && ([h] + t)[1..] == t;
  }

  /** Inserting `x` puts it ahead of the elements that share its key. */
  lemma {:induction false} InsertWithKey(x: Task, s: seq<Task>, key: Task -> int)
    ensures WithKey(Insert(x, s, key), key, key(x)) == [x] + WithKey(s, key, key(x))
    decreases |s|
  {
    if |s| == 0 {
      WithKeyCons(x, [], key, key(x));
    } else if key(x) <= key(s[0]) {
      WithKeyCons(x, s, key, key(x));
    } else {
      InsertWithKey(x, s[1..], key);
      WithKeyCons(s[0], Insert(x, s[1..], key), key, key(x));
      WithKeyCons(s[0], s[1..], key, key(x));
      assert s == [s[0]] + s[1..];
    }
  }

  /** Inserting `x` leaves the elements of any other key as they were. */
  lemma {:induction false} InsertOtherKey(x: Task, s: seq<Task>, key: Task -> int, v: int)
    requires v != key(x)
    ensures WithKey(Insert(x, s, key), key, v) == WithKey(s, key, v)
    decreases |s|
  {
    if |s| == 0 {
      WithKeyCons(x, [], key, v);
    } else if key(x) <= key(s[0]) {
      WithKeyCons(x, s, key, v);
    } else {
      InsertOtherKey(x, s[1..], key, v);
      WithKeyCons(s[0], Insert(x, s[1..], key), key, v);
      WithKeyCons(s[0], s[1..], key, v);
      assert s == [s[0]] + s[1..];
    }
  }

  /** A lower bound of `x` and of every element of `s` bounds every element of the insertion. */
  lemma {:induction false} InsertBounded(x: Task, s: seq<Task>, key: Task -> int, b: int)
    requires b <= key(x) && forall i :: 0 <= i < |s| ==> b <= key(s[i])
    ensures forall i :: 0 <= i < |Insert(x, s, key)| ==> b <= key(Insert(x, s, key)[i])
    decreases |s|
  {
    if |s| > 0 && key(x) > key(s[0]) {
      InsertBounded(x, s[1..], key, b);
      var r := [s[0]] + Insert(x, s[1..], key);
      assert forall i :: 0 < i < |r| ==> r[i] == Insert(x, s[1..], key)[i - 1];
    }
  }

  lemma {:induction false} InsertSorted(x: Task, s: seq<Task>, key: Task -> int)
    requires Sorted(s, key)
    ensures Sorted(Insert(x, s, key), key)
    decreases |s|
  {
    if |s| > 0 && key(x) > key(s[0]) {
      var rest := Insert(x, s[1..], key);
      assert Sorted(s[1..], key) by {
        forall i, j | 0 <= i < j < |s[1..]| ensures key(s[1..][i]) <= key(s[1..][j]) {
          assert s[1..][i] == s[i + 1] && s[1..][j] == s[j + 1];
        }
      }
      InsertSorted(x, s[1..], key);
      InsertBounded(x, s[1..], key, key(s[0]));
      var r := [s[0]] + rest;
      assert r[0] == s[0] && r[1..] == rest;
      forall i, j | 0 <= i < j < |r| ensures key(r[i]) <= key(r[j]) {
        assert r[j] == rest[j - 1];
        if i > 0 {
          assert r[i] == rest[i - 1];
        }
      }
    }
  }

  /** The sort keeps every task (a permutation of its input), orders them by key, and keeps
      tasks with equal keys in their input order. */
  lemma {:induction false} SortCorrect(s: seq<Task>, key: Task -> int)
    ensures Sorted(Sort(s, key), key)
    ensures multiset(Sort(s, key)) == multiset(s)
    ensures forall v :: WithKey(Sort(s, key), key, v) == WithKey(s, key, v)
    decreases |s|
  {
    if |s| > 0 {
      SortCorrect(s[1..], key);
      InsertSorted(s[0], Sort(s[1..], key), key);
      InsertPermutes(s[0], Sort(s[1..], key), key);
      InsertWithKey(s[0], Sort(s[1..], key), key);
      forall v | v != key(s[0])
        ensures WithKey(Sort(s, key), key, v) == WithKey(s, key, v)
      {
        InsertOtherKey(s[0], Sort(s[1..], key), key, v);
      }
      assert s == [s[0]] + s[1..];
    }
  }

  /** sortTasks returns the same tasks, ordered by the signed key, ties in list order. */
  lemma SortTasksCorrect(list: seq<Task>, field: SortField, order: SortOrder, rank: string -> int)
    ensures var r := SortTasks(list, field, order, rank);
            |r| == |list| && multiset(r) == multiset(list)
            && (forall i, j :: 0 <= i < j < |r| ==> SignedKey(r[i], field, order, rank) <= SignedKey(r[j], field, order, rank))
            && (forall v :: WithKey(r, KeyOf(field, order, rank), v) == WithKey(list, KeyOf(field, order, rank), v))
  {
    var key := KeyOf(field, order, rank);
    SortCorrect(list, key);
    var r := SortTasks(list, field, order, rank);
    assert |r| == |multiset(r)| == |multiset(list)| == |list|;
  }

  /** Descending order lists keys from largest to smallest. */
  lemma DescendingOrder(list: seq<Task>, field: SortField, rank: string -> int)
    ensures var r := SortTasks(list, field, Desc, rank);
            forall i, j :: 0 <= i < j < |r| ==> Key(r[i], field, rank) >= Key(r[j], field, rank)
  {
    SortTasksCorrect(list, field, Desc, rank);
  }
}
