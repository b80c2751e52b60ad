/** Views/GoalDetailView.swift: the numbered key results, the badge of each
    related task, and adding a task to the goal shown. */
module GoalDetailView {
  import opened Common
  import opened Tasks
  import opened ModelStore
  import opened TaskEditor
  import NewTaskView

  /** One row of the key-result list: its 1-based number and its text. */
  datatype NumberedLine = NumberedLine(number: nat, text: string)

  /** The key-result rows, numbered from `first` on. */
  function NumberedFrom(keyResults: seq<string>, first: nat): (r: seq<NumberedLine>)
    ensures |r| == |keyResults|
    ensures forall i :: 0 <= i < |r| ==> r[i] == NumberedLine(first + i, keyResults[i])
  {
    if keyResults == [] then []
    else [NumberedLine(first, keyResults[0])] + NumberedFrom(keyResults[1..], first + 1)
  }

  /** `ForEach(goal.keyResults.indices)`: the rows "1.", "2.", ... in stored
      order. */
  function KeyResultLines(keyResults: seq<string>): seq<NumberedLine> {
    NumberedFrom(keyResults, 1)
  }

  /** Every key result is listed once, in stored order, numbered by its
      position counted from one; the numbers are 1..n without gaps. */
  lemma KeyResultLinesSpec(keyResults: seq<string>)
    ensures |KeyResultLines(keyResults)| == |keyResults|
    ensures forall i :: 0 <= i < |keyResults| ==>
      KeyResultLines(keyResults)[i].number == i + 1 && KeyResultLines(keyResults)[i].text == keyResults[i]
  {
  }

  /** What the trailing edge of a related-task row shows. */
  datatype TaskBadge = Checkmark | QuadrantLabel(name: string)

  /** A completed task shows a checkmark, any other task its quadrant's name. */
  function Badge(t: Task): TaskBadge {
    if t.isCompleted then Checkmark else QuadrantLabel(Name(t.Quadrant()))
  }

  /** The checkmark appears exactly on completed tasks, and two incomplete
      tasks show the same label exactly when they lie in the same quadrant. */
  lemma BadgeSpec(t: Task, u: Task)
    ensures Badge(t).Checkmark? <==> t.isCompleted
    ensures !t.isCompleted && !u.isCompleted ==> (Badge(t) == Badge(u) <==> t.Quadrant() == u.Quadrant())
  {
    QuadrantLabelsDistinct(t.Quadrant(), u.Quadrant());
  }

  /** "添加任务" opens the new-task sheet with this goal preselected
      (`NewTaskDraft(Some(g), now)`); the sheet's form `d` is then saved as
      typed. The new task joins the end of this goal's related tasks exactly
      when the picker was left on the goal; otherwise the goal's related
      tasks are unchanged. */
  method AddTaskToGoal(store: Store, g: Id, d: TaskDraft, now: Time) returns (id: Id)
    requires store.Valid() && g in store.goals && CanSave(d)
    modifies store
    ensures store.Valid()
    ensures id !in old(store.tasks)
    ensures store.tasks == old(store.tasks)[id := Task(id, d.title, d.description, false, Some(d.dueDate),
        now, now, d.isProactive, d.importance, d.urgency, Linked(d.selectedGoalId, store.goals))]
    ensures store.tasks[id] in store.RelatedTasks(g) <==> d.selectedGoalId == Some(g)
    ensures d.selectedGoalId == Some(g) ==> store.RelatedTasks(g) == old(store.RelatedTasks(g)) + [store.tasks[id]]
    ensures d.selectedGoalId != Some(g) ==> store.RelatedTasks(g) == old(store.RelatedTasks(g))
    ensures store.goals == old(store.goals) && store.missions == old(store.missions)
    ensures store.records == old(store.records)
  {
    id := NewTaskView.SaveNewTask(store, d, now);
    store.RelatedTasksInverse(g, store.tasks[id]);
    FilterAppend(old(store.TaskList()), [store.tasks[id]], (t: Task) => t.goal == Some(g));
    if d.selectedGoalId != Some(g) {
      assert Filter([store.tasks[id]], (t: Task) => t.goal == Some(g)) == [];
    }
  }
}
