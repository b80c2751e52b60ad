/** Views/TaskDetailView.swift: the score dots, the priority advice, and
    completing the task shown. */
module TaskDetailView {
  import opened Common
  import opened Tasks
  import opened EmotionRecords
  import opened ModelStore
  import opened EmotionSelectorView

  /** `ForEach(1...5)`: dot `i` (from `first` to 5) is filled when `i` does
      not exceed the score. */
  function DotsFrom(first: int, score: int): (r: seq<bool>)
    requires 1 <= first <= 6
    ensures |r| == 6 - first
    decreases 6 - first
  {
    if first == 6 then [] else [first <= score] + DotsFrom(first + 1, score)
  }

  /** The five dots shown for an importance or urgency score. */
  function Dots(score: int): seq<bool> {
    DotsFrom(1, score)
  }

  /** How many entries of `s` are true. */
  function CountFilled(s: seq<bool>): nat {
    if s == [] then 0 else (if s[0] then 1 else 0) + CountFilled(s[1..])
  }

  /** From dot `first` on, the filled dots are those up to the score. */
  lemma {:induction false} DotsFromCount(first: int, score: int)
    requires 1 <= first <= 6
    ensures CountFilled(DotsFrom(first, score)) == if score < first then 0 else if score > 5 then 6 - first else score - first + 1
    decreases 6 - first
  {
    if first < 6 {
      DotsFromCount(first + 1, score);
      assert DotsFrom(first, score)[1..] == DotsFrom(first + 1, score);
    }
  }

  /** Five dots are shown, and the filled ones are the score clamped to 0..5:
      dot `i` is filled exactly when `i <= score`. */
  lemma DotsSpec(score: int)
    ensures |Dots(score)| == 5
    ensures CountFilled(Dots(score)) == if score < 0 then 0 else if score > 5 then 5 else score
  {
    DotsFromCount(1, score);
  }

  /** `aiPriorityRecommendation`: the advice for each quadrant. */
  function AiPriorityRecommendation(q: TaskQuadrant): string {
    match q
    case ImportantUrgent => ImportantUrgentAdvice
    case ImportantNotUrgent => ImportantNotUrgentAdvice
    case NotImportantUrgent => NotImportantUrgentAdvice
    case NotImportantNotUrgent => NotImportantNotUrgentAdvice
  }

  const ImportantUrgentAdvice: string :=
    "这是一个重要且紧急的任务，建议尽快完成。考虑分配专注时间块立即处理。未来可思考如何提前规划类似任务，避免紧急状态。"
  const ImportantNotUrgentAdvice: string :=
    "这是一个重要但不紧急的任务，这类任务是个人发展和目标达成的关键。建议在精力充沛时段安排时间块，避免拖延至紧急状态。"
  const NotImportantUrgentAdvice: string :=
    "这是一个紧急但不重要的任务。考虑是否可以委派他人处理，或简化流程。反思是否有系统性问题导致这类任务频繁出现。"
  const NotImportantNotUrgentAdvice: string :=
    "这是一个既不重要也不紧急的任务。评估是否有必要完成，或可以被删除。如需完成，安排在精力较低或琐碎时间段处理。"

  /** Every quadrant has advice, and different quadrants different advice. */
  lemma RecommendationsDistinct(p: TaskQuadrant, q: TaskQuadrant)
    ensures AiPriorityRecommendation(p) != ""
    ensures AiPriorityRecommendation(p) == AiPriorityRecommendation(q) <==> p == q
  {
  }

  /** What the screen offers for a task: the advice panel and the
      "标记为完成" button appear only while it is incomplete. */
  datatype DetailPanels = DetailPanels(advice: Option<string>, canMarkComplete: bool)

  function Panels(t: Task): DetailPanels {
    if t.isCompleted then DetailPanels(None, false)
    else DetailPanels(Some(AiPriorityRecommendation(t.Quadrant())), true)
  }

  /** Advice and completion are offered exactly for incomplete tasks, and the
      advice is the one for the task's quadrant. */
  lemma PanelsSpec(t: Task)
    ensures Panels(t).canMarkComplete <==> !t.isCompleted
    ensures Panels(t).advice.Some? <==> !t.isCompleted
    ensures Panels(t).advice.Some? ==> Panels(t).advice.value == AiPriorityRecommendation(QuadrantOf(t.importance, t.urgency))
  {
  }

  /** The detail screen's sheet state. */
  class TaskDetailScreen {
    var showingEmotionSelector: bool

    constructor ()
      ensures !showingEmotionSelector
    {
      showingEmotionSelector := false;
    }

    /** "标记为完成": present only for an incomplete task; it opens the
        emotion selector. */
    method MarkComplete(t: Task)
      requires Panels(t).canMarkComplete
      modifies this
      ensures showingEmotionSelector
    {
      showingEmotionSelector := true;
    }

    /** The `onComplete` closure: the task is completed, its `modifiedAt`
        touched, and exactly one record with the chosen emotion and note is
        inserted and linked to it. An incomplete task owned no record, so no
        other record changes. */
    method Complete(store: Store, id: Id, choice: CompletionChoice, now: Time) returns (rid: Id)
      requires store.Valid() && id in store.tasks && !store.tasks[id].isCompleted
      modifies this, store
      ensures store.Valid()
      ensures store.tasks == old(store.tasks)[id := old(store.tasks)[id].(isCompleted := true, modifiedAt := now)]
      ensures rid !in old(store.records)
      ensures store.records == old(store.records)[rid := EmotionRecord(rid, choice.emotion, choice.note, now, Some(id))]
      ensures store.EmotionRecordOf(id) == Some(store.records[rid])
      ensures !Panels(store.tasks[id]).canMarkComplete
      ensures store.goals == old(store.goals) && store.missions == old(store.missions)
    {
      rid := store.CompleteTask(id, choice.emotion, choice.note, now);
      showingEmotionSelector := false;
    }
  }
}
