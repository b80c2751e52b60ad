/** The Task entity of Models/Task.swift: its stored attributes, the quadrant
    derived from importance and urgency, and the `TaskQuadrant` vocabulary. */
module Tasks {
  import opened Common

  /** Importance or urgency at or above this value counts as "high". */
  const Threshold: int := 3

  datatype TaskQuadrant =
    | ImportantUrgent        // quadrant I
    | ImportantNotUrgent     // quadrant II
    | NotImportantUrgent     // quadrant III
    | NotImportantNotUrgent  // quadrant IV

  /** The four cases in declaration order. */
  const AllQuadrants: seq<TaskQuadrant> :=
    [ImportantUrgent, ImportantNotUrgent, NotImportantUrgent, NotImportantNotUrgent]

  /** The Int raw value of each case. */
  function RawValue(q: TaskQuadrant): (r: int)
    ensures 1 <= r <= 4
    ensures AllQuadrants[r - 1] == q
  {
    match q
    case ImportantUrgent => 1
    case ImportantNotUrgent => 2
    case NotImportantUrgent => 3
    case NotImportantNotUrgent => 4
  }

  /** The display label of each case. */
  function Name(q: TaskQuadrant): string {
    match q
    case ImportantUrgent => "重要且紧急"
    case ImportantNotUrgent => "重要不紧急"
    case NotImportantUrgent => "紧急不重要"
    case NotImportantNotUrgent => "既不重要也不紧急"
  }

  /** Raw values and names tell the four quadrants apart. */
  lemma QuadrantLabelsDistinct(p: TaskQuadrant, q: TaskQuadrant)
    ensures RawValue(p) == RawValue(q) <==> p == q
    ensures Name(p) == Name(q) <==> p == q
  {
    assert AllQuadrants[RawValue(p) - 1] == p && AllQuadrants[RawValue(q) - 1] == q;
  }

  /** Whether a quadrant is one of the two "important" ones. */
  predicate IsImportant(q: TaskQuadrant) {
    q == ImportantUrgent || q == ImportantNotUrgent
  }

  /** Whether a quadrant is one of the two "urgent" ones. */
  predicate IsUrgent(q: TaskQuadrant) {
    q == ImportantUrgent || q == NotImportantUrgent
  }

  /** The quadrant of a pair of scores: the body of `Task.quadrant`. */
  function QuadrantOf(importance: int, urgency: int): TaskQuadrant {
    if importance >= Threshold && urgency >= Threshold then ImportantUrgent
    else if importance >= Threshold && urgency < Threshold then ImportantNotUrgent
    else if importance < Threshold && urgency >= Threshold then NotImportantUrgent
    else NotImportantNotUrgent
  }

  /** The quadrant is decided by two independent thresholds: it is important
      exactly when importance reaches 3 and urgent exactly when urgency does,
      so every pair of scores lands in exactly one of the four quadrants. */
  lemma QuadrantCharacterization(importance: int, urgency: int)
    ensures IsImportant(QuadrantOf(importance, urgency)) <==> importance >= 3
    ensures IsUrgent(QuadrantOf(importance, urgency)) <==> urgency >= 3
    ensures QuadrantOf(importance, urgency) == ImportantUrgent <==> importance >= 3 && urgency >= 3
    ensures QuadrantOf(importance, urgency) == ImportantNotUrgent <==> importance >= 3 && urgency < 3
    ensures QuadrantOf(importance, urgency) == NotImportantUrgent <==> importance < 3 && urgency >= 3
    ensures QuadrantOf(importance, urgency) == NotImportantNotUrgent <==> importance < 3 && urgency < 3
  {
  }

  /** Raising importance (urgency fixed) never leaves the important half,
      and raising urgency (importance fixed) never leaves the urgent half;
      neither changes the other half. */
  lemma QuadrantMonotonic(importance: int, urgency: int, importance': int, urgency': int)
    requires importance <= importance' && urgency <= urgency'
    ensures IsImportant(QuadrantOf(importance, urgency)) ==> IsImportant(QuadrantOf(importance', urgency'))
    ensures IsUrgent(QuadrantOf(importance, urgency)) ==> IsUrgent(QuadrantOf(importance', urgency'))
    ensures IsImportant(QuadrantOf(importance, urgency)) == IsImportant(QuadrantOf(importance, urgency'))
    ensures IsUrgent(QuadrantOf(importance, urgency)) == IsUrgent(QuadrantOf(importance', urgency))
  {
    QuadrantCharacterization(importance, urgency);
    QuadrantCharacterization(importance', urgency');
    QuadrantCharacterization(importance, urgency');
    QuadrantCharacterization(importance', urgency);
  }

  /** A stored task. `goal` is the one authoritative link of the
      Task-Goal edge; the task's emotion record is found from the record side. */
  datatype Task = Task(
    id: Id,
    title: string,
    description: string,
    isCompleted: bool,
    dueDate: Option<Time>,
    createdAt: Time,
    modifiedAt: Time,
    isProactive: bool,   // circle of influence (true) or of concern (false)
    importance: int,     // 1..5 when set through the editors
    urgency: int,        // 1..5 when set through the editors
    goal: Option<Id>)
  {
    /** `Task.quadrant`, recomputed from the current scores on every read. */
    function Quadrant(): TaskQuadrant {
      QuadrantOf(importance, urgency)
    }
  }

  /** The quadrant reads nothing but importance and urgency. */
  lemma QuadrantOnlyFromScores(t: Task, u: Task)
    requires t.importance == u.importance && t.urgency == u.urgency
    ensures t.Quadrant() == u.Quadrant()
  {
  }

  /** `Task.init` with its default arguments; the new task is not linked to
      a goal and has no emotion record. */
  function NewTask(id: Id, title: string, now: Time, description: string := "",
                   isCompleted: bool := false, dueDate: Option<Time> := None,
                   isProactive: bool := true, importance: int := 3, urgency: int := 3): Task
  {
    Task(id, title, description, isCompleted, dueDate, now, now, isProactive, importance, urgency, None)
  }

  /** A task created with only a title is incomplete, proactive, scored 3/3
      with an empty description, and therefore lands in quadrant I. */
  lemma NewTaskDefaults(id: Id, title: string, now: Time)
    ensures var t := NewTask(id, title, now);
      && !t.isCompleted && t.isProactive && t.importance == 3 && t.urgency == 3
      && t.description == "" && t.dueDate == None && t.goal == None
      && t.Quadrant() == ImportantUrgent
  {
  }
}
