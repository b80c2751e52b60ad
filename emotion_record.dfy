/** The EmotionRecord entity of Models/EmotionRecord.swift and the
    `EmotionType` vocabulary with its positive/negative tag. */
module EmotionRecords {
  import opened Common

  datatype EmotionType = Happy | Satisfied | Calm | Tired | Frustrated | Anxious | Motivated

  /** `EmotionType.allCases`, in declaration order. */
  const AllEmotions: seq<EmotionType> := [Happy, Satisfied, Calm, Tired, Frustrated, Anxious, Motivated]

  /** The display label (raw value) of each emotion. */
  function EmotionName(e: EmotionType): string {
    match e
    case Happy => "高兴"
    case Satisfied => "满足"
    case Calm => "平静"
    case Tired => "疲惫"
    case Frustrated => "沮丧"
    case Anxious => "焦虑"
    case Motivated => "动力满满"
  }

  /** The emoji shown for each emotion. */
  function Icon(e: EmotionType): string {
    match e
    case Happy => "😄"
    case Satisfied => "😊"
    case Calm => "😌"
    case Tired => "😩"
    case Frustrated => "😞"
    case Anxious => "😰"
    case Motivated => "💪"
  }

  /** Whether the emotion is a positive one. */
  predicate IsPositive(e: EmotionType) {
    match e
    case Happy | Satisfied | Calm | Motivated => true
    case Tired | Frustrated | Anxious => false
  }

  /** The emotions of a list that are positive. */
  function Positives(es: seq<EmotionType>): (r: seq<EmotionType>)
    ensures |r| <= |es|
  {
    if es == [] then []
    else (if IsPositive(es[0]) then [es[0]] else []) + Positives(es[1..])
  }

  /** Seven emotions, each listed once. */
  lemma EmotionTypesComplete(e: EmotionType)
    ensures |AllEmotions| == 7 && e in AllEmotions
    ensures forall i, j :: 0 <= i < j < |AllEmotions| ==> AllEmotions[i] != AllEmotions[j]
  {
  }

  /** Each emotion has its own icon and its own label. */
  lemma EmotionLabelsDistinct(e: EmotionType, f: EmotionType)
    ensures Icon(e) == Icon(f) <==> e == f
    ensures EmotionName(e) == EmotionName(f) <==> e == f
  {
  }

  /** Four emotions (happy, satisfied, calm, motivated) are positive and the
      other three negative. */
  lemma EmotionPolarity(e: EmotionType)
    ensures IsPositive(e) <==> e in {Happy, Satisfied, Calm, Motivated}
    ensures Positives(AllEmotions) == [Happy, Satisfied, Calm, Motivated]
  {
  }

  /** A stored emotion record. `task` is the one authoritative link of the
      Task-EmotionRecord edge. */
  datatype EmotionRecord = EmotionRecord(
    id: Id,
    emotionType: EmotionType,
    note: Option<string>,
    recordedAt: Time,
    task: Option<Id>)

  /** `EmotionRecord.init` with its default arguments. */
  function NewEmotionRecord(id: Id, emotionType: EmotionType, now: Time,
                            note: Option<string> := None, task: Option<Id> := None): EmotionRecord
  {
    EmotionRecord(id, emotionType, note, now, task)
  }

  /** Without a note argument the record has no note; it is stamped with the
      creation time and linked to the task it is given. */
  lemma NewEmotionRecordDefaults(id: Id, e: EmotionType, now: Time, task: Id)
    ensures var r := NewEmotionRecord(id, e, now, task := Some(task));
      && r.note == None && r.recordedAt == now && r.task == Some(task) && r.emotionType == e
  {
  }
}
