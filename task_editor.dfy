/** The task editor shared by Views/NewTaskView.swift and
    Views/EditTaskView.swift: the form's state, its defaults, the save
    condition, and the labels shown next to the two sliders. */
module TaskEditor {
  import opened Common
  import opened Tasks

  /** The `@State` of a task form. The sliders hold whole numbers in 1...5,
      so the scores are integers here. */
  datatype TaskDraft = TaskDraft(
    title: string,
    description: string,
    dueDate: Time,
    isProactive: bool,
    importance: int,
    urgency: int,
    selectedGoalId: Option<Id>)

  /** `NewTaskView(preselectedGoalId:)`: an empty form due tomorrow. */
  function NewTaskDraft(preselectedGoalId: Option<Id>, now: Time): TaskDraft {
    TaskDraft("", "", now + OneDay, true, 3, 3, preselectedGoalId)
  }

  /** `EditTaskView(task:)`: the form starts from the task's own values, due
      tomorrow when the task has no due date. */
  function DraftFromTask(t: Task, now: Time): TaskDraft {
    TaskDraft(t.title, t.description,
              if t.dueDate.Some? then t.dueDate.value else now + OneDay,
              t.isProactive, t.importance, t.urgency, t.goal)
  }

  /** The Save button is enabled only when the title is not empty. */
  predicate CanSave(d: TaskDraft) {
    d.title != ""
  }

  /** A new form is proactive, scored 3/3 (so it previews quadrant I), due one
      day from now, keeps the preselected goal, and cannot be saved before a
      title is typed. */
  lemma NewTaskDraftDefaults(preselectedGoalId: Option<Id>, now: Time)
    ensures var d := NewTaskDraft(preselectedGoalId, now);
      && d.isProactive && d.importance == 3 && d.urgency == 3
      && d.dueDate == now + 86400 && d.selectedGoalId == preselectedGoalId
      && QuadrantText(d.importance, d.urgency) == Name(ImportantUrgent)
      && !CanSave(d)
  {
  }

  /** The label next to the importance slider. */
  function ImportanceLabel(v: int): string {
    match v
    case 1 => "很低"
    case 2 => "较低"
    case 3 => "中等"
    case 4 => "较高"
    case 5 => "很高"
    case _ => ""
  }

  /** The label next to the urgency slider. */
  function UrgencyLabel(v: int): string {
    match v
    case 1 => "不急"
    case 2 => "较不急"
    case 3 => "一般"
    case 4 => "较急"
    case 5 => "很急"
    case _ => ""
  }

  /** Each slider value 1..5 has a label of its own, and every other value
      has the empty label. */
  lemma LabelsCoverScale(v: int, w: int)
    ensures ImportanceLabel(v) != "" <==> 1 <= v <= 5
    ensures UrgencyLabel(v) != "" <==> 1 <= v <= 5
    ensures 1 <= v <= 5 && 1 <= w <= 5 ==> (ImportanceLabel(v) == ImportanceLabel(w) <==> v == w)
    ensures 1 <= v <= 5 && 1 <= w <= 5 ==> (UrgencyLabel(v) == UrgencyLabel(w) <==> v == w)
  {
  }

  /** `quadrantText`: the form's own preview of the quadrant, written with
      its own thresholds and strings. */
  function QuadrantText(importance: int, urgency: int): string {
    if importance >= 3 && urgency >= 3 then "重要且紧急"
    else if importance >= 3 && urgency < 3 then "重要不紧急"
    else if importance < 3 && urgency >= 3 then "紧急不重要"
    else "既不重要也不紧急"
  }

  /** The preview always names the quadrant the saved task will have. */
  lemma QuadrantTextAgrees(importance: int, urgency: int)
    ensures QuadrantText(importance, urgency) == Name(QuadrantOf(importance, urgency))
  {
  }
}
