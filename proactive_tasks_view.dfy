/** Views/ProactiveTasksView.swift: the circle-of-influence and
    circle-of-concern sections, deleting rows of one section, and completing
    a task from a row. */
module ProactiveTasksView {
  import opened Common
  import opened Tasks
  import opened EmotionRecords
  import opened ModelStore
  import opened EmotionSelectorView

  /** "我的影响圈" (`proactive`) or "我的关注圈" (not `proactive`): the
      incomplete tasks of that kind, in store order. */
  function Section(ts: seq<Task>, proactive: bool): seq<Task> {
    Filter(ts, (t: Task) => t.isProactive == proactive && !t.isCompleted)
  }

  /** A task is in a section exactly when it is listed, incomplete and of
      that section's kind: each incomplete task is in exactly one section
      and a completed task in neither. */
  lemma SectionMember(ts: seq<Task>, proactive: bool, t: Task)
    ensures t in Section(ts, proactive) <==> t in ts && !t.isCompleted && t.isProactive == proactive
  {
    FilterMember(ts, (t: Task) => t.isProactive == proactive && !t.isCompleted, t);
  }

  /** The two sections together hold the incomplete tasks, each exactly as
      often as it is listed. */
  lemma {:induction false} SectionsPartition(ts: seq<Task>)
    ensures multiset(Section(ts, true)) + multiset(Section(ts, false))
         == multiset(Filter(ts, (t: Task) => !t.isCompleted))
  {
    if ts != [] {
      SectionsPartition(ts[1..]);
    }
  }

  /** `IndexSet`: distinct row positions, in increasing order, below `n`. */
  predicate IsIndexSet(offsets: seq<nat>, n: nat) {
    (forall i :: 0 <= i < |offsets| ==> offsets[i] < n)
    && forall i, j :: 0 <= i < j < |offsets| ==> offsets[i] < offsets[j]
  }

  /** `offsets.map { rows[$0] }`, by id: the tasks a delete gesture picks. */
  function RowIds(rows: seq<Task>, offsets: seq<nat>): (r: seq<Id>)
    requires IsIndexSet(offsets, |rows|)
    ensures |r| == |offsets|
  {
    seq(|offsets|, k requires 0 <= k < |offsets| => rows[offsets[k]].id)
  }

  /** In a list without repeated ids, the row at position `i` is picked
      exactly when `i` is one of the offsets. */
  lemma RowPicked(rows: seq<Task>, offsets: seq<nat>, i: nat)
    requires KeysIncrease(rows, (t: Task) => t.id)
    requires IsIndexSet(offsets, |rows|) && i < |rows|
    ensures rows[i].id in RowIds(rows, offsets) <==> i in offsets
  {
    var ids := RowIds(rows, offsets);
    if i in offsets {
      var k :| 0 <= k < |offsets| && offsets[k] == i;
      assert ids[k] == rows[i].id;
    }
    if rows[i].id in ids {
      var k :| 0 <= k < |ids| && ids[k] == rows[i].id;
      assert rows[offsets[k]].id == rows[i].id;
      if offsets[k] != i {
        assert offsets[k] < i || i < offsets[k];
      }
    }
  }

  /** The tasks of `ts` whose id is not among `ids`, in order. */
  function Without(ts: seq<Task>, ids: seq<Id>): seq<Task> {
    Filter(ts, (t: Task) => t.id !in ids)
  }

  /** The records that survive deleting the tasks `ids`: those not owned by
      any of them (the cascade of `Task.emotionRecord`). */
  function RecordsWithout(records: map<Id, EmotionRecord>, ids: seq<Id>): map<Id, EmotionRecord> {
    map k | k in records && !(records[k].task.Some? && records[k].task.value in ids) :: records[k]
  }

  /** Deleting one more task removes the records it owns from what is left. */
  lemma RecordsWithoutStep(records: map<Id, EmotionRecord>, ids: seq<Id>, id: Id)
    ensures (map k | k in RecordsWithout(records, ids) && RecordsWithout(records, ids)[k].task != Some(id)
               :: RecordsWithout(records, ids)[k])
         == RecordsWithout(records, ids + [id])
  {
  }

  /** Deleting the next task of `ids` from what is left after deleting the
      first `k` leaves what is left after deleting the first `k + 1`. */
  lemma WithoutStep(ts: seq<Task>, ids: seq<Id>, k: nat)
    requires k < |ids|
    ensures Filter(Without(ts, ids[..k]), (t: Task) => t.id != ids[k]) == Without(ts, ids[..k + 1])
  {
    assert ids[..k + 1] == ids[..k] + [ids[k]];
    FilterConj(ts, (t: Task) => t.id !in ids[..k], (t: Task) => t.id != ids[k], (t: Task) => t.id !in ids[..k + 1]);
  }

  /** One round of `DeleteTasks`: after the first `k` tasks of `ids` are
      gone, deleting task `k` leaves the state after the first `k + 1`. */
  method DeleteNext(store: Store, ghost before: seq<Task>, ghost records: map<Id, EmotionRecord>,
                    ids: seq<Id>, k: nat)
    requires store.Valid() && k < |ids|
    requires forall i, j :: 0 <= i < j < |ids| ==> ids[i] != ids[j]
    requires forall j :: k <= j < |ids| ==> ids[j] in store.tasks
    requires store.TaskList() == Without(before, ids[..k])
    requires store.records == RecordsWithout(records, ids[..k])
    modifies store
    ensures store.Valid()
    ensures forall j :: k + 1 <= j < |ids| ==> ids[j] in store.tasks
    ensures store.TaskList() == Without(before, ids[..k + 1])
    ensures store.records == RecordsWithout(records, ids[..k + 1])
    ensures store.goals == old(store.goals) && store.missions == old(store.missions)
    ensures store.nextId == old(store.nextId)
  {
    WithoutStep(before, ids, k);
    RecordsWithoutStep(records, ids[..k], ids[k]);
    assert ids[..k + 1] == ids[..k] + [ids[k]];
    store.DeleteTask(ids[k]);
  }

  /** `for task in tasksToDelete { modelContext.delete(task) }`: the tasks
      with ids `ids`, all stored and all different, are deleted one after
      the other; the task list loses exactly them and keeps its order, and
      the records they owned go with them. */
  method DeleteTasks(store: Store, ids: seq<Id>)
    requires store.Valid()
    requires forall j :: 0 <= j < |ids| ==> ids[j] in store.tasks
    requires forall i, j :: 0 <= i < j < |ids| ==> ids[i] != ids[j]
    modifies store
    ensures store.Valid()
    ensures store.TaskList() == Without(old(store.TaskList()), ids)
    ensures store.records == RecordsWithout(old(store.records), ids)
    ensures store.goals == old(store.goals) && store.missions == old(store.missions)
    ensures store.nextId == old(store.nextId)
  {
    ghost var before := store.TaskList();
    FilterAll(before, (t: Task) => t.id !in ids[..0]);
    var k := 0;
    while k < |ids|
      invariant 0 <= k <= |ids|
      invariant store.Valid()
      invariant store.TaskList() == Without(before, ids[..k])
      invariant store.records == RecordsWithout(old(store.records), ids[..k])
      invariant forall j :: k <= j < |ids| ==> ids[j] in store.tasks
      invariant store.goals == old(store.goals) && store.missions == old(store.missions)
      invariant store.nextId == old(store.nextId)
    {
      DeleteNext(store, before, old(store.records), ids, k);
      k := k + 1;
    }
    assert ids[..k] == ids;
  }

  /** `deleteProactiveTasks(at:)` / `deleteConcernTasks(at:)`: the rows at
      `offsets` of one section are looked up first and then deleted, each
      with the cascade of its emotion record. Exactly the rows at those
      positions leave the task list, which otherwise keeps its order, and
      exactly their records leave the store. */
  method DeleteSectionRows(store: Store, proactive: bool, offsets: seq<nat>)
    requires store.Valid() && IsIndexSet(offsets, |Section(store.TaskList(), proactive)|)
    modifies store
    ensures store.Valid()
    ensures store.TaskList() == Without(old(store.TaskList()), RowIds(Section(old(store.TaskList()), proactive), offsets))
    ensures forall i :: 0 <= i < |Section(old(store.TaskList()), proactive)| ==>
      (Section(old(store.TaskList()), proactive)[i] in store.TaskList() <==> i !in offsets)
    ensures store.records == RecordsWithout(old(store.records), RowIds(Section(old(store.TaskList()), proactive), offsets))
    ensures store.goals == old(store.goals) && store.missions == old(store.missions)
    ensures store.nextId == old(store.nextId)
  {
    ghost var before := store.TaskList();
    var rows := Section(store.TaskList(), proactive);
    store.TaskListIdsIncrease();
    FilterKeysIncrease(before, (t: Task) => t.isProactive == proactive && !t.isCompleted, (t: Task) => t.id);
    var ids := RowIds(rows, offsets);
    forall j | 0 <= j < |ids|
      ensures ids[j] in store.tasks
    {
      assert rows[offsets[j]] in rows;
      SectionMember(before, proactive, rows[offsets[j]]);
      store.TaskListMember(rows[offsets[j]]);
    }
    forall i, j | 0 <= i < j < |ids|
      ensures ids[i] != ids[j]
    {
      assert offsets[i] < offsets[j];
    }
    DeleteTasks(store, ids);
    forall i | 0 <= i < |rows|
      ensures rows[i] in store.TaskList() <==> i !in offsets
    {
      assert rows[i] in rows;
      SectionMember(before, proactive, rows[i]);
      FilterMember(before, (t: Task) => t.id !in ids, rows[i]);
      RowPicked(rows, offsets, i);
    }
  }

  /** The screen's completion state: the task whose row was ticked and
      whether the emotion selector is open. */
  class ProactiveScreen {
    var selectedTask: Option<Id>
    var showingEmotionSelector: bool

    constructor ()
      ensures selectedTask == None && !showingEmotionSelector
    {
      selectedTask, showingEmotionSelector := None, false;
    }

    /** A row's tick: remember the task and open the emotion selector. */
    method TickRow(id: Id)
      modifies this
      ensures selectedTask == Some(id) && showingEmotionSelector
    {
      selectedTask, showingEmotionSelector := Some(id), true;
    }

    /** The `onComplete` closure: the selected task is completed, its
        `modifiedAt` touched, exactly one record with the chosen emotion and
        note is inserted and linked to it, and the selection is cleared. The
        task then leaves both sections. */
    method Complete(store: Store, choice: CompletionChoice, now: Time) returns (rid: Id)
      requires store.Valid() && selectedTask.Some? && selectedTask.value in store.tasks
      requires !store.tasks[selectedTask.value].isCompleted
      modifies this, store
      ensures store.Valid()
      ensures var id := old(selectedTask).value;
        && store.tasks == old(store.tasks)[id := old(store.tasks)[id].(isCompleted := true, modifiedAt := now)]
        && rid !in old(store.records)
        && store.records == old(store.records)[rid := EmotionRecord(rid, choice.emotion, choice.note, now, Some(id))]
        && store.EmotionRecordOf(id) == Some(store.records[rid])
        && forall b: bool, t :: t in Section(store.TaskList(), b) ==> t.id != id
      ensures selectedTask == None && !showingEmotionSelector
      ensures store.goals == old(store.goals) && store.missions == old(store.missions)
    {
      var id := selectedTask.value;
      rid := store.CompleteTask(id, choice.emotion, choice.note, now);
      forall b: bool, t | t in Section(store.TaskList(), b)
        ensures t.id != id
      {
        SectionMember(store.TaskList(), b, t);
        store.TaskListMember(t);
      }
      selectedTask, showingEmotionSelector := None, false;
    }

    /** "跳过": the selector closes without calling `onComplete`; the
        selection stays and the store is not touched. */
    method Skip()
      modifies this
      ensures !showingEmotionSelector && selectedTask == old(selectedTask)
    {
      showingEmotionSelector := false;
    }
  }
}
