/** Views/EditTaskView.swift: writing the edited form back onto a stored
    task. */
module EditTaskView {
  import opened Common
  import opened Tasks
  import opened Goals
  import opened ModelStore
  import opened TaskEditor

  /** The task after `saveTask` with form `d`, goal link `link` and time
      `now`: six fields come from the form, the link and the time are
      replaced, and everything else is kept. */
  function EditedTask(t: Task, d: TaskDraft, link: Option<Id>, now: Time): Task {
    t.(title := d.title, description := d.description, dueDate := Some(d.dueDate),
       isProactive := d.isProactive, importance := d.importance, urgency := d.urgency,
       modifiedAt := now, goal := link)
  }

  /** An edit never touches the identity, the completion flag or the
      creation time of a task; a saved task always has a due date. */
  lemma EditKeepsIdentity(t: Task, d: TaskDraft, link: Option<Id>, now: Time)
    ensures var e := EditedTask(t, d, link, now);
      e.id == t.id && e.isCompleted == t.isCompleted && e.createdAt == t.createdAt && e.dueDate.Some?
    ensures EditedTask(t, d, link, now).Quadrant() == QuadrantOf(d.importance, d.urgency)
  {
  }

  /** Opening the editor and saving without touching anything gives back the
      task itself, except that it gains the default due date when it had
      none and its modification time moves to the save time. */
  lemma UntouchedEditRoundTrip(t: Task, goals: map<Id, Goal>, openedAt: Time, savedAt: Time)
    requires t.goal.Some? ==> t.goal.value in goals
    ensures EditedTask(t, DraftFromTask(t, openedAt), Linked(DraftFromTask(t, openedAt).selectedGoalId, goals), savedAt)
         == t.(dueDate := Some(if t.dueDate.Some? then t.dueDate.value else openedAt + OneDay), modifiedAt := savedAt)
  {
  }

  /** Saving twice with the same form is saving once, apart from the time. */
  lemma EditIdempotent(t: Task, d: TaskDraft, link: Option<Id>, now: Time, later: Time)
    ensures EditedTask(EditedTask(t, d, link, now), d, link, later) == EditedTask(t, d, link, later)
  {
  }

  /** `saveTask`: the task is updated in place; it links to the selected goal
      when that id names a stored goal and to no goal otherwise. No other
      task, goal, mission or record changes. */
  method SaveTaskEdits(store: Store, id: Id, d: TaskDraft, now: Time)
    requires store.Valid() && id in store.tasks && CanSave(d)
    modifies store
    ensures store.Valid()
    ensures store.tasks == old(store.tasks)[id := EditedTask(old(store.tasks)[id], d, Linked(d.selectedGoalId, store.goals), now)]
    ensures store.goals == old(store.goals) && store.missions == old(store.missions)
    ensures store.records == old(store.records) && store.nextId == old(store.nextId)
  {
    store.LookupGoalSpec(d.selectedGoalId);
    var link := store.LookupGoal(d.selectedGoalId);
    var t := store.tasks[id];
    t := t.(title := d.title, description := d.description, dueDate := Some(d.dueDate),
            isProactive := d.isProactive, importance := d.importance, urgency := d.urgency,
            modifiedAt := now);
    t := t.(goal := link);
    store.tasks := store.tasks[id := t];
  }
}
