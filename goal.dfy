/** The Goal entity of Models/Goal.swift and its two closed vocabularies,
    `LifeArea` and `GoalTimeframe`. */
module Goals {
  import opened Common

  datatype LifeArea = Career | Family | Health | Learning | Finance | Social | Spiritual

  /** `LifeArea.allCases`, in declaration order. */
  const AllAreas: seq<LifeArea> := [Career, Family, Health, Learning, Finance, Social, Spiritual]

  /** The display label (raw value) of each life area. */
  function AreaName(a: LifeArea): string {
    match a
    case Career => "事业/工作"
    case Family => "家庭"
    case Health => "健康"
    case Learning => "学习"
    case Finance => "财务"
    case Social => "社交"
    case Spiritual => "精神"
  }

  /** The SF Symbol shown for each life area. */
  function Icon(a: LifeArea): string {
    match a
    case Career => "briefcase"
    case Family => "house"
    case Health => "heart"
    case Learning => "book"
    case Finance => "dollarsign.circle"
    case Social => "person.2"
    case Spiritual => "sparkles"
  }

  /** There are exactly seven life areas, each listed once, and each has a
      non-empty icon and a label of its own. */
  lemma AllAreasComplete(a: LifeArea, b: LifeArea)
    ensures |AllAreas| == 7 && a in AllAreas
    ensures forall i, j :: 0 <= i < j < |AllAreas| ==> AllAreas[i] != AllAreas[j]
    ensures Icon(a) != ""
    ensures AreaName(a) == AreaName(b) <==> a == b
    ensures Icon(a) == Icon(b) <==> a == b
  {
  }

  datatype GoalTimeframe = ShortTerm | MediumTerm | LongTerm

  /** `GoalTimeframe.allCases`, in declaration order. */
  const AllTimeframes: seq<GoalTimeframe> := [ShortTerm, MediumTerm, LongTerm]

  /** The display label (raw value) of each timeframe. */
  function TimeframeName(t: GoalTimeframe): string {
    match t
    case ShortTerm => "短期(1个月)"
    case MediumTerm => "中期(1年)"
    case LongTerm => "长期(3-5年)"
  }

  /** There are exactly three timeframes, each listed once with its own label. */
  lemma AllTimeframesComplete(t: GoalTimeframe, u: GoalTimeframe)
    ensures |AllTimeframes| == 3 && t in AllTimeframes
    ensures forall i, j :: 0 <= i < j < |AllTimeframes| ==> AllTimeframes[i] != AllTimeframes[j]
    ensures TimeframeName(t) == TimeframeName(u) <==> t == u
  {
  }

  /** A stored goal. `mission` is the one authoritative link of the
      Goal-LifeMission edge; the goal's related tasks are found from the task side. */
  datatype Goal = Goal(
    id: Id,
    title: string,
    description: string,
    area: LifeArea,
    timeframe: GoalTimeframe,
    createdAt: Time,
    targetDate: Option<Time>,
    isCompleted: bool,
    keyResults: seq<string>,
    mission: Option<Id>)

  /** `Goal.init` with its default arguments; the new goal belongs to no mission. */
  function NewGoal(id: Id, title: string, area: LifeArea, timeframe: GoalTimeframe, now: Time,
                   description: string := "", targetDate: Option<Time> := None,
                   isCompleted: bool := false, keyResults: seq<string> := []): Goal
  {
    Goal(id, title, description, area, timeframe, now, targetDate, isCompleted, keyResults, None)
  }

  /** A goal created with only the required arguments is incomplete, has no
      key results, no target date, an empty description and no mission. */
  lemma NewGoalDefaults(id: Id, title: string, area: LifeArea, timeframe: GoalTimeframe, now: Time)
    ensures var g := NewGoal(id, title, area, timeframe, now);
      && !g.isCompleted && g.keyResults == [] && g.targetDate == None
      && g.description == "" && g.mission == None && g.createdAt == now
  {
  }
}
