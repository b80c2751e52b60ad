/** Views/TaskQuadrantView.swift: the four-column board of active tasks and
    the drag-and-drop that moves a task to another quadrant by rewriting its
    scores. */
module TaskQuadrantView {
  import opened Common
  import opened Tasks
  import opened ModelStore

  /** `@Query(filter: !$0.isCompleted)`: the tasks still to do. */
  function ActiveTasks(ts: seq<Task>): seq<Task> {
    Filter(ts, (t: Task) => !t.isCompleted)
  }

  /** `activeTasks.filter { $0.quadrant == quadrant }`: one column of the board. */
  function QuadrantTasks(ts: seq<Task>, q: TaskQuadrant): seq<Task> {
    Filter(ActiveTasks(ts), (t: Task) => t.Quadrant() == q)
  }

  /** A task is shown in column `q` exactly when it is one of the listed
      tasks, is not completed, and its quadrant is `q`: so every incomplete
      task is in exactly one column and a completed one in none. */
  lemma QuadrantColumnMember(ts: seq<Task>, q: TaskQuadrant, t: Task)
    ensures t in QuadrantTasks(ts, q) <==> t in ts && !t.isCompleted && t.Quadrant() == q
  {
    FilterMember(ts, (t: Task) => !t.isCompleted, t);
    FilterMember(ActiveTasks(ts), (t: Task) => t.Quadrant() == q, t);
  }

  /** The four columns together hold the active tasks, each exactly as often
      as it is listed: the columns partition the active list. */
  lemma {:induction false} QuadrantColumnsPartition(ts: seq<Task>)
    ensures multiset(QuadrantTasks(ts, ImportantUrgent)) + multiset(QuadrantTasks(ts, ImportantNotUrgent))
          + multiset(QuadrantTasks(ts, NotImportantUrgent)) + multiset(QuadrantTasks(ts, NotImportantNotUrgent))
          == multiset(ActiveTasks(ts))
  {
    if ts != [] {
      QuadrantColumnsPartition(ts[1..]);
      var t := ts[0];
      assert ActiveTasks(ts) == (if t.isCompleted then [] else [t]) + ActiveTasks(ts[1..]);
    }
  }

  /** So the column sizes add up to the number of active tasks. */
  lemma QuadrantColumnsCount(ts: seq<Task>)
    ensures |QuadrantTasks(ts, ImportantUrgent)| + |QuadrantTasks(ts, ImportantNotUrgent)|
          + |QuadrantTasks(ts, NotImportantUrgent)| + |QuadrantTasks(ts, NotImportantNotUrgent)|
          == |ActiveTasks(ts)|
  {
    QuadrantColumnsPartition(ts);
    assert |multiset(ActiveTasks(ts))| == |ActiveTasks(ts)|;
  }

  datatype Scores = Scores(importance: int, urgency: int)

  /** The scores the drop handler writes for each target quadrant. */
  function TargetScores(q: TaskQuadrant): Scores {
    match q
    case ImportantUrgent => Scores(4, 4)
    case ImportantNotUrgent => Scores(4, 2)
    case NotImportantUrgent => Scores(2, 4)
    case NotImportantNotUrgent => Scores(2, 2)
  }

  /** A task after `updateTaskQuadrant(task, q)` at time `now`. */
  function Retargeted(t: Task, q: TaskQuadrant, now: Time): Task {
    t.(importance := TargetScores(q).importance, urgency := TargetScores(q).urgency, modifiedAt := now)
  }

  /** Retargeting lands the task in the requested quadrant, with scores
      of 2 or 4 (inside 1..5), and touches nothing but the two scores and
      the modification time. */
  lemma RetargetedLandsInQuadrant(t: Task, q: TaskQuadrant, now: Time)
    ensures Retargeted(t, q, now).Quadrant() == q
    ensures Retargeted(t, q, now).importance in {2, 4} && Retargeted(t, q, now).urgency in {2, 4}
    ensures Retargeted(t, q, now).(importance := t.importance, urgency := t.urgency, modifiedAt := t.modifiedAt) == t
  {
  }

  /** Retargeting twice to the same quadrant is retargeting once, apart
      from the timestamp; and a task whose scores came from a retarget is
      retargeted back onto the same scores by its own quadrant. */
  lemma RetargetIdempotent(t: Task, q: TaskQuadrant, now: Time, later: Time)
    ensures Retargeted(Retargeted(t, q, now), q, later) == Retargeted(t, q, later)
    ensures Retargeted(t, q, now).(modifiedAt := later) == Retargeted(t, q, later)
    ensures var r := Retargeted(t, q, now); Retargeted(r, r.Quadrant(), now) == r
  {
  }

  /** `updateTaskQuadrant(task:toQuadrant:)`: rewrite the task's scores so
      that its derived quadrant becomes `q`, and touch `modifiedAt`. */
  method UpdateTaskQuadrant(store: Store, id: Id, q: TaskQuadrant, now: Time)
    requires store.Valid() && id in store.tasks
    modifies store
    ensures store.Valid()
    ensures store.tasks == old(store.tasks)[id := Retargeted(old(store.tasks)[id], q, now)]
    ensures store.tasks[id].Quadrant() == q
    ensures store.goals == old(store.goals) && store.missions == old(store.missions)
    ensures store.records == old(store.records) && store.nextId == old(store.nextId)
  {
    var importance, urgency;
    match q {
      case ImportantUrgent =>
        importance, urgency := 4, 4;
      case ImportantNotUrgent =>
        importance, urgency := 4, 2;
      case NotImportantUrgent =>
        importance, urgency := 2, 4;
      case NotImportantNotUrgent =>
        importance, urgency := 2, 2;
    }
    store.tasks := store.tasks[id := store.tasks[id].(importance := importance, urgency := urgency, modifiedAt := now)];
  }

  /** The board's drag state: the task being dragged and the column it left. */
  class QuadrantBoard {
    var draggedTask: Option<Id>
    var draggedQuadrant: Option<TaskQuadrant>

    /** No drag in progress. */
    constructor ()
      ensures draggedTask == None && draggedQuadrant == None
    {
      draggedTask, draggedQuadrant := None, None;
    }

    /** `.onDrag`: remember the task and the column it is dragged from. */
    method StartDrag(id: Id, column: TaskQuadrant)
      modifies this
      ensures draggedTask == Some(id) && draggedQuadrant == Some(column)
    {
      draggedTask, draggedQuadrant := Some(id), Some(column);
    }

    /** `.onDrop` on column `target`: refused, changing nothing, when no drag
        is in progress or the task is dropped back on its own column;
        otherwise the task is retargeted to `target`, the drag state is
        cleared, and the drop is accepted. */
    method Drop(store: Store, target: TaskQuadrant, now: Time) returns (accepted: bool)
      requires store.Valid()
      requires draggedTask.Some? ==> draggedTask.value in store.tasks
      modifies this, store
      ensures store.Valid()
      ensures accepted <==> old(draggedTask).Some? && old(draggedQuadrant).Some? && old(draggedQuadrant).value != target
      ensures !accepted ==> draggedTask == old(draggedTask) && draggedQuadrant == old(draggedQuadrant)
      ensures !accepted ==> store.tasks == old(store.tasks)
      ensures accepted ==> draggedTask == None && draggedQuadrant == None
      ensures accepted ==> var id := old(draggedTask).value;
        store.tasks == old(store.tasks)[id := Retargeted(old(store.tasks)[id], target, now)]
        && store.tasks[id].Quadrant() == target
      ensures store.goals == old(store.goals) && store.missions == old(store.missions)
      ensures store.records == old(store.records) && store.nextId == old(store.nextId)
    {
      if draggedTask.None? || draggedQuadrant.None? || draggedQuadrant.value == target {
        return false;
      }
      UpdateTaskQuadrant(store, draggedTask.value, target, now);
      draggedTask, draggedQuadrant := None, None;
      return true;
    }
  }
}
