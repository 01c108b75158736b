/** The sparse date-indexed entry store and the transforms the journal
    applies to it: the read-with-default, the shallow merge that every
    mutation goes through, the habit toggle, and the task-list operations.
    Date keys are opaque strings. */
module Entries {
  import opened Json
  import opened Seqs
  import opened Text

  /** A task: `id` is the `Date.now()` reading at creation. */
  datatype Task = Task(id: int, text: string, completed: bool)

  /** A day's record as stored. Every field may be missing, because a merge
      into an absent date starts from an empty record. */
  datatype Entry = Entry(
    tasks: Option<seq<Task>>,
    habits: Option<map<string, bool>>,
    notes: Option<string>,
    mood: Option<int>,
    gratitude: Option<string>)

  type DataMap = map<string, Entry>

  /** `{}`: the record a merge into an absent date starts from. */
  function EmptyEntry(): Entry {
    Entry(None, None, None, None, None)
  }

  /** The record shown for a date that has no stored entry. */
  function DefaultEntry(): Entry {
    Entry(Some([]), Some(map[]), Some(""), None, Some(""))
  }

  /** `data[date] || default`: a stored entry (an object, hence truthy) or
      the default record, which is not inserted. */
  function CurrentEntry(data: DataMap, date: string): Entry {
    if date in data then data[date] else DefaultEntry()
  }

  /** `prev[date] || {}`, the base of a merge. */
  function StoredOrEmpty(data: DataMap, date: string): Entry {
    if date in data then data[date] else EmptyEntry()
  }

  /** `entry.tasks || []` */
  function TasksOf(e: Entry): seq<Task> {
    e.tasks.GetOr([])
  }

  /** `entry.habits || {}` */
  function HabitsOf(e: Entry): map<string, bool> {
    e.habits.GetOr(map[])
  }

  /** `{ ...e, ...patch }`: each field the patch names replaces the entry's. */
  function Merge(e: Entry, patch: Entry): Entry {
    Entry(
      if patch.tasks.Some? then patch.tasks else e.tasks,
      if patch.habits.Some? then patch.habits else e.habits,
      if patch.notes.Some? then patch.notes else e.notes,
      if patch.mood.Some? then patch.mood else e.mood,
      if patch.gratitude.Some? then patch.gratitude else e.gratitude)
  }

  /** `{ ...prev, [date]: { ...prev[date] || {}, ...patch } }`, the body of
      both `updateEntry` and `updateDayData`. */
  function MergeInto(data: DataMap, date: string, patch: Entry): (r: DataMap)
    ensures r.Keys == data.Keys + {date}
    ensures forall d :: d in data && d != date ==> r[d] == data[d]
  {
    data[date := Merge(StoredOrEmpty(data, date), patch)]
  }

  function TasksPatch(ts: seq<Task>): Entry { EmptyEntry().(tasks := Some(ts)) }
  function HabitsPatch(h: map<string, bool>): Entry { EmptyEntry().(habits := Some(h)) }
  function NotesPatch(s: string): Entry { EmptyEntry().(notes := Some(s)) }
  function MoodPatch(m: int): Entry { EmptyEntry().(mood := Some(m)) }

  // ---------------------------------------------------------------- reading

  /** A date with no entry reads as the default record, whose effective
      tasks are `[]` and effective habits `{}`. */
  lemma {:induction false} ReadAbsent(data: DataMap, date: string)
    requires date !in data
    ensures CurrentEntry(data, date) == Entry(Some([]), Some(map[]), Some(""), None, Some(""))
    ensures TasksOf(CurrentEntry(data, date)) == [] && HabitsOf(CurrentEntry(data, date)) == map[]
  {
  }

  /** Reading after a merge: the merged date shows the stored record (or
      the empty one) with the patch applied; every other date reads as
      before. */
  lemma {:induction false} ReadAfterMerge(data: DataMap, date: string, patch: Entry, other: string)
    ensures CurrentEntry(MergeInto(data, date, patch), date) == Merge(StoredOrEmpty(data, date), patch)
    ensures other != date ==> CurrentEntry(MergeInto(data, date, patch), other) == CurrentEntry(data, other)
  {
  }

  /** Merging into an absent date stores the patch alone: fields it does not
      name stay absent rather than taking their default values. */
  lemma {:induction false} MergeIntoAbsent(data: DataMap, date: string, patch: Entry)
    requires date !in data
    ensures MergeInto(data, date, patch)[date] == patch
  {
  }

  /** A merge replaces exactly the fields the patch names and keeps the
      others of the base record. */
  lemma {:induction false} MergeReplacesNamedFields(e: Entry, patch: Entry)
    ensures var r := Merge(e, patch);
      && (patch.tasks.Some? ==> r.tasks == patch.tasks) && (patch.tasks.None? ==> r.tasks == e.tasks)
      && (patch.habits.Some? ==> r.habits == patch.habits) && (patch.habits.None? ==> r.habits == e.habits)
      && (patch.notes.Some? ==> r.notes == patch.notes) && (patch.notes.None? ==> r.notes == e.notes)
      && (patch.mood.Some? ==> r.mood == patch.mood) && (patch.mood.None? ==> r.mood == e.mood)
      && (patch.gratitude.Some? ==> r.gratitude == patch.gratitude) && (patch.gratitude.None? ==> r.gratitude == e.gratitude)
  {
  }

  /** Two merges into a date equal one merge of the patches merged. */
  lemma {:induction false} MergeTwice(data: DataMap, date: string, p1: Entry, p2: Entry)
    ensures MergeInto(MergeInto(data, date, p1), date, p2) == MergeInto(data, date, Merge(p1, p2))
  {
  }

  /** `mergeEntry(d, {mood: 7})` then `mergeEntry(d, {notes: "x"})` keeps both. */
  lemma {:induction false} MoodThenNotes(data: DataMap, date: string)
    ensures MergeInto(MergeInto(data, date, MoodPatch(7)), date, NotesPatch("x"))[date].mood == Some(7)
    ensures MergeInto(MergeInto(data, date, MoodPatch(7)), date, NotesPatch("x"))[date].notes == Some("x")
  {
  }

  // ----------------------------------------------------------- habit toggle

  /** `{ ...h, [id]: !h[id] }`: an absent key counts as not done. */
  function ToggledHabits(h: map<string, bool>, id: string): (r: map<string, bool>)
    ensures r.Keys == h.Keys + {id}
    ensures r[id] == !(id in h && h[id])
    ensures forall k :: k in h && k != id ==> r[k] == h[k]
  {
    h[id := !(id in h && h[id])]
  }

  /** `toggleHabit` and the summary table's cell click. */
  function ToggleHabit(data: DataMap, date: string, id: string): DataMap {
    MergeInto(data, date, HabitsPatch(ToggledHabits(HabitsOf(CurrentEntry(data, date)), id)))
  }

  /** The toggle changes only the entry of `date`, and in it only `habits`:
      the flag at `id` is negated (absent becomes true), the other flags are
      kept, and so is every other field of the stored record. */
  lemma {:induction false} ToggleHabitEffect(data: DataMap, date: string, id: string)
    ensures var r := ToggleHabit(data, date, id);
      && r.Keys == data.Keys + {date}
      && (forall d :: d in data && d != date ==> r[d] == data[d])
      && var before, after := StoredOrEmpty(data, date), r[date];
      && after.habits.Some?
      && after.habits.value.Keys == HabitsOf(before).Keys + {id}
      && after.habits.value[id] == !(id in HabitsOf(before) && HabitsOf(before)[id])
      && (forall k :: k in HabitsOf(before) && k != id ==> after.habits.value[k] == HabitsOf(before)[k])
      && after.(habits := before.habits) == before
  {
  }

  /** Toggling twice restores a recorded flag; an unrecorded one ends up
      recorded as `false`. */
  lemma {:induction false} ToggleHabitTwice(data: DataMap, date: string, id: string)
    ensures var h := HabitsOf(CurrentEntry(data, date));
      var r := ToggleHabit(ToggleHabit(data, date, id), date, id);
      HabitsOf(r[date]) == if id in h then h else h[id := false]
  {
  }

  // ------------------------------------------------------------------ tasks

  /** `addTask`: blank text changes nothing; otherwise the new task, with
      the text as typed, goes in front of the day's tasks. */
  function AddTask(data: DataMap, date: string, text: string, now: int): DataMap {
    if IsBlank(text) then data
    else MergeInto(data, date, TasksPatch([Task(now, text, false)] + TasksOf(CurrentEntry(data, date))))
  }

  lemma {:induction false} AddTaskEffect(data: DataMap, date: string, text: string, now: int)
    ensures IsBlank(text) ==> AddTask(data, date, text, now) == data
    ensures !IsBlank(text) ==>
      var r := AddTask(data, date, text, now);
      var before := TasksOf(CurrentEntry(data, date));
      var after := TasksOf(CurrentEntry(r, date));
      && |after| == |before| + 1
      && after[0] == Task(now, text, false)
      && after[1..] == before
      && r[date].(tasks := StoredOrEmpty(data, date).tasks) == StoredOrEmpty(data, date)
      && (forall d :: d in data && d != date ==> d in r && r[d] == data[d])
  {
  }

  /** `tasks.filter(t => t.id !== id)`: exactly the tasks with another id,
      in their order. */
  function RemoveTask(ts: seq<Task>, id: int): (r: seq<Task>)
    ensures forall k :: 0 <= k < |r| ==> r[k].id != id
    ensures forall t :: multiset(r)[t] == if t.id != id then multiset(ts)[t] else 0
    ensures IsSubsequence(r, ts)
  {
    var keep := (t: Task) => t.id != id;
    FilterCounts(ts, keep);
    FilterIsSubsequence(ts, keep);
    Filter(ts, keep)
  }

  /** `deleteTask` */
  function DeleteTask(data: DataMap, date: string, id: int): DataMap {
    MergeInto(data, date, TasksPatch(RemoveTask(TasksOf(CurrentEntry(data, date)), id)))
  }

  /** `t.id === id ? { ...t, completed: !t.completed } : t` */
  function FlipOne(t: Task, id: int): Task {
    if t.id == id then t.(completed := !t.completed) else t
  }

  /** `FlipOne` mapped over the list. */
  function FlipTask(ts: seq<Task>, id: int): (r: seq<Task>)
    ensures |r| == |ts|
  {
    seq(|ts|, k requires 0 <= k < |ts| => FlipOne(ts[k], id))
  }

  /** The comparator given to `sort`: incomplete before complete, and
      equal completion compares equal. */
  function CompareTasks(a: Task, b: Task): int {
    if a.completed == b.completed then 0 else if a.completed then 1 else -1
  }

  /** Sorted for `CompareTasks`: no pair is out of order. */
  predicate SortedByCompletion(ts: seq<Task>) {
    forall i, j :: 0 <= i < j < |ts| ==> CompareTasks(ts[i], ts[j]) <= 0
  }

  predicate IsIncomplete(t: Task) { !t.completed }
  predicate IsComplete(t: Task) { t.completed }

  /** What a stable sort by `CompareTasks` produces: the incomplete tasks,
      then the complete ones, each group in its original order. */
  function StablePartition(ts: seq<Task>): seq<Task> {
    Filter(ts, IsIncomplete) + Filter(ts, IsComplete)
  }

  /** The list `toggleTask` stores. */
  function ToggledTasks(ts: seq<Task>, id: int): seq<Task> {
    StablePartition(FlipTask(ts, id))
  }

  /** `toggleTask` */
  function ToggleTask(data: DataMap, date: string, id: int): DataMap {
    MergeInto(data, date, TasksPatch(ToggledTasks(TasksOf(CurrentEntry(data, date)), id)))
  }

  lemma {:induction false} PartitionIsPermutation(ts: seq<Task>)
    ensures multiset(StablePartition(ts)) == multiset(ts)
  {
    var a, b := Filter(ts, IsIncomplete), Filter(ts, IsComplete);
    FilterCounts(ts, IsIncomplete);
    FilterCounts(ts, IsComplete);
    assert forall t :: multiset(a + b)[t] == multiset(ts)[t] by {
      forall t ensures multiset(a + b)[t] == multiset(ts)[t] {
        assert multiset(a + b)[t] == multiset(a)[t] + multiset(b)[t];
      }
    }
  }

  lemma {:induction false} PartitionIsSorted(ts: seq<Task>)
    ensures SortedByCompletion(StablePartition(ts))
  {
  }

  /** Each group, taken out of the result, is that group in the input. */
  lemma {:induction false} PartitionIsStable(ts: seq<Task>)
    ensures Filter(StablePartition(ts), IsIncomplete) == Filter(ts, IsIncomplete)
    ensures Filter(StablePartition(ts), IsComplete) == Filter(ts, IsComplete)
  {
    var a, b := Filter(ts, IsIncomplete), Filter(ts, IsComplete);
    FilterAppend(a, b, IsIncomplete);
    FilterAppend(a, b, IsComplete);
    FilterAll(a, IsIncomplete);
    FilterNone(b, IsIncomplete);
    FilterNone(a, IsComplete);
    FilterAll(b, IsComplete);
  }

  /** A list sorted by `CompareTasks` is its incomplete tasks followed by its
      complete ones. */
  lemma {:induction false} SortedSplits(r: seq<Task>)
    requires SortedByCompletion(r)
    ensures r == Filter(r, IsIncomplete) + Filter(r, IsComplete)
    decreases |r|
  {
    if |r| > 0 {
      if r[0].completed {
        assert forall k :: 0 <= k < |r| ==> r[k].completed by {
          forall k | 0 < k < |r| ensures r[k].completed {
            assert CompareTasks(r[0], r[k]) <= 0;
          }
        }
        FilterNone(r, IsIncomplete);
        FilterAll(r, IsComplete);
      } else {
        var t := r[1..];
        assert SortedByCompletion(t) by {
          forall i, j | 0 <= i < j < |t| ensures CompareTasks(t[i], t[j]) <= 0 {
            assert t[i] == r[i + 1] && t[j] == r[j + 1];
          }
        }
        SortedSplits(t);
        assert Filter(r, IsIncomplete) == [r[0]] + Filter(t, IsIncomplete);
        assert Filter(r, IsComplete) == Filter(t, IsComplete);
        assert r == [r[0]] + t;
      }
    }
  }

  /** Stable sorting is determined: a list sorted by `CompareTasks` that has
      the same incomplete group and the same complete group as `ts` is
      `StablePartition(ts)`. */
  lemma {:induction false} StableSortIsUnique(ts: seq<Task>, r: seq<Task>)
    requires SortedByCompletion(r)
    requires Filter(r, IsIncomplete) == Filter(ts, IsIncomplete)
    requires Filter(r, IsComplete) == Filter(ts, IsComplete)
    ensures r == StablePartition(ts)
  {
    SortedSplits(r);
  }

  /** `toggleTask` stores a permutation of the list with exactly the tasks
      whose id matches flipped, sorted incomplete-first, each group in the
      order of that flipped list. */
  lemma {:induction false} ToggleTaskEffect(data: DataMap, date: string, id: int)
    ensures var ts := TasksOf(CurrentEntry(data, date));
      var flipped := FlipTask(ts, id);
      var r := TasksOf(ToggleTask(data, date, id)[date]);
      && (forall k :: 0 <= k < |ts| ==>
            flipped[k] == if ts[k].id == id then ts[k].(completed := !ts[k].completed) else ts[k])
      && multiset(r) == multiset(flipped)
      && SortedByCompletion(r)
      && Filter(r, IsIncomplete) == Filter(flipped, IsIncomplete)
      && Filter(r, IsComplete) == Filter(flipped, IsComplete)
  {
    var flipped := FlipTask(TasksOf(CurrentEntry(data, date)), id);
    PartitionIsPermutation(flipped);
    PartitionIsStable(flipped);
  }

  /** A task completed by the toggle is not moved behind the complete tasks
      that follow it: `[A(false), B(true), C(false)]` with A toggled gives
      `[C, A, B]`. */
  lemma {:induction false} ToggleTaskExample()
    ensures ToggledTasks([Task(1, "A", false), Task(2, "B", true), Task(3, "C", false)], 1)
         == [Task(3, "C", false), Task(1, "A", true), Task(2, "B", true)]
  {
    var flipped := FlipTask([Task(1, "A", false), Task(2, "B", true), Task(3, "C", false)], 1);
    assert flipped == [Task(1, "A", true), Task(2, "B", true), Task(3, "C", false)];
    assert flipped[1..][1..] == [Task(3, "C", false)];
    assert Filter(flipped, IsIncomplete) == [Task(3, "C", false)];
    assert Filter(flipped, IsComplete) == [Task(1, "A", true), Task(2, "B", true)];
  }

  /** Flipping the same id twice restores the list. */
  lemma {:induction false} FlipTaskTwice(ts: seq<Task>, id: int)
    ensures FlipTask(FlipTask(ts, id), id) == ts
  {
  }

  /** `FlipOne` is its own inverse, so a flipped list holds `t` as often as
      the list held the task `t` came from. */
  lemma {:induction false} FlipTaskCount(ts: seq<Task>, id: int, t: Task)
    ensures multiset(FlipTask(ts, id))[t] == multiset(ts)[FlipOne(t, id)]
  {
    if ts != [] {
      assert ts == [ts[0]] + ts[1..];
      assert FlipTask(ts, id) == [FlipOne(ts[0], id)] + FlipTask(ts[1..], id);
      FlipTaskCount(ts[1..], id, t);
      assert FlipOne(ts[0], id) == t <==> ts[0] == FlipOne(t, id);
    }
  }

  /** The flip sees only which tasks a list holds, not their order. */
  lemma {:induction false} FlipTaskPermutation(ts: seq<Task>, us: seq<Task>, id: int)
    requires multiset(ts) == multiset(us)
    ensures multiset(FlipTask(ts, id)) == multiset(FlipTask(us, id))
  {
    forall t ensures multiset(FlipTask(ts, id))[t] == multiset(FlipTask(us, id))[t] {
      FlipTaskCount(ts, id, t);
      FlipTaskCount(us, id, t);
    }
  }

  /** Toggling the same task twice gives every task its old completion
      back; only the order may differ. */
  lemma {:induction false} ToggleTaskTwice(data: DataMap, date: string, id: int)
    ensures multiset(TasksOf(ToggleTask(ToggleTask(data, date, id), date, id)[date]))
         == multiset(TasksOf(CurrentEntry(data, date)))
  {
    var ts := TasksOf(CurrentEntry(data, date));
    var once := ToggleTask(data, date, id);
    var r1 := ToggledTasks(ts, id);
    assert TasksOf(CurrentEntry(once, date)) == r1;
    PartitionIsPermutation(FlipTask(ts, id));
    FlipTaskPermutation(r1, FlipTask(ts, id), id);
    FlipTaskTwice(ts, id);
    PartitionIsPermutation(FlipTask(r1, id));
  }

  /** `StablePartition` of a list extended by one task. */
  lemma {:induction false} PartitionSnoc(p: seq<Task>, x: Task)
    ensures StablePartition(p + [x]) ==
      if x.completed then Filter(p, IsIncomplete) + Filter(p, IsComplete) + [x]
      else Filter(p, IsIncomplete) + [x] + Filter(p, IsComplete)
  {
    FilterAppend(p, [x], IsIncomplete);
    FilterAppend(p, [x], IsComplete);
    FilterOne(x, IsIncomplete);
    FilterOne(x, IsComplete);
    var a, b := Filter(p, IsIncomplete), Filter(p, IsComplete);
    if x.completed {
      assert a + [] == a;
      assert a + (b + [x]) == a + b + [x];
    } else {
      assert b + [] == b;
    }
  }

  /** One step of the insertion sort below: `x`, moved left from the end of
      the sorted prefix `StablePartition(p)` until its left neighbour no
      longer compares greater, lands where `StablePartition(p + [x])` puts
      it. */
  lemma {:induction false} InsertStep(p: seq<Task>, done: seq<Task>, x: Task, j: nat, after: seq<Task>)
    requires done == StablePartition(p) && |done| == |p|
    requires j <= |p| && |after| == |p| + 1
    requires after[j] == x
    requires forall k :: 0 <= k < j ==> after[k] == done[k]
    requires forall k :: j < k <= |p| ==> after[k] == done[k - 1]
    requires forall k :: j <= k < |p| ==> done[k].completed
    requires j < |p| ==> !x.completed
    requires j == 0 || CompareTasks(after[j - 1], after[j]) <= 0
    ensures after == StablePartition(p + [x])
  {
    var a, b := Filter(p, IsIncomplete), Filter(p, IsComplete);
    PartitionSnoc(p, x);
    if x.completed {
      assert after == done + [x];
    } else {
      InsertIncomplete(a, b, x, j, after);
    }
  }

  /** An incomplete task stopped just after the last incomplete task of
      `a + b` (incomplete `a`, complete `b`) sits between the two groups. */
  lemma {:induction false} InsertIncomplete(a: seq<Task>, b: seq<Task>, x: Task, j: nat, after: seq<Task>)
    requires forall k :: 0 <= k < |a| ==> IsIncomplete(a[k])
    requires forall k :: 0 <= k < |b| ==> IsComplete(b[k])
    requires !x.completed
    requires j <= |a| + |b| && |after| == |a| + |b| + 1 && after[j] == x
    requires forall k :: 0 <= k < j ==> after[k] == (a + b)[k]
    requires forall k :: j < k <= |a| + |b| ==> after[k] == (a + b)[k - 1]
    requires forall k :: j <= k < |a| + |b| ==> (a + b)[k].completed
    requires j == 0 || CompareTasks(after[j - 1], after[j]) <= 0
    ensures after == a + [x] + b
  {
    var m := |a|;
    assert forall k :: 0 <= k < m ==> !(a + b)[k].completed;
    assert forall k :: m <= k < |a| + |b| ==> (a + b)[k].completed;
    var target := a + [x] + b;
    forall k | 0 <= k < |after|
      ensures after[k] == target[k]
    {
      if k < m {
        assert target[k] == a[k] == (a + b)[k];
      } else if k > m {
        assert target[k] == b[k - m - 1] == (a + b)[k - 1];
      }
    }
  }

  /** One pass of the insertion sort: the element at `i` moves left past
      every neighbour that compares greater than it, and `j` is where it
      stops. */
  method InsertLeft(a: array<Task>, i: nat) returns (j: nat)
    requires i < a.Length
    modifies a
    ensures j <= i && a[j] == old(a[i])
    ensures forall k :: 0 <= k < j ==> a[k] == old(a[k])
    ensures forall k :: j < k <= i ==> a[k] == old(a[k - 1])
    ensures forall k :: j <= k < i ==> old(a[k]).completed
    ensures j < i ==> !old(a[i]).completed
    ensures j == 0 || CompareTasks(a[j - 1], a[j]) <= 0
    ensures forall k :: i < k < a.Length ==> a[k] == old(a[k])
  {
    j := i;
    while j > 0 && CompareTasks(a[j - 1], a[j]) > 0
      invariant j <= i && a[j] == old(a[i])
      invariant forall k :: 0 <= k < j ==> a[k] == old(a[k])
      invariant forall k :: j < k <= i ==> a[k] == old(a[k - 1])
      invariant forall k :: j <= k < i ==> old(a[k]).completed
      invariant j < i ==> !old(a[i]).completed
      invariant forall k :: i < k < a.Length ==> a[k] == old(a[k])
      decreases j
    {
      a[j - 1], a[j] := a[j], a[j - 1];
      j := j - 1;
    }
  }

  /** `updatedTasks.sort(CompareTasks)` in place. `Array.prototype.sort` is
      stable; this is an insertion sort that moves an element left past
      every neighbour that compares greater than it. */
  method SortTasks(a: array<Task>)
    modifies a
    ensures a[..] == StablePartition(old(a[..]))
  {
    ghost var orig := a[..];
    var i := 0;
    while i < a.Length
      invariant 0 <= i <= a.Length
      invariant a[..i] == StablePartition(orig[..i])
      invariant forall k :: i <= k < a.Length ==> a[k] == orig[k]
    {
      ghost var done := a[..i];
      var j := InsertLeft(a, i);
      ghost var after := a[..i + 1];
      assert forall k :: 0 <= k < j ==> after[k] == done[k];
      assert forall k :: j < k <= i ==> after[k] == done[k - 1];
      assert forall k :: j <= k < i ==> done[k].completed;
      InsertStep(orig[..i], done, orig[i], j, after);
      assert orig[..i + 1] == orig[..i] + [orig[i]];
      i := i + 1;
    }
    assert a[..] == a[..a.Length];
    assert orig[..a.Length] == orig;
  }
}
