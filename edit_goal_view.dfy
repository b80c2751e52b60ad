/** Views/EditGoalView.swift: writing the edited form back onto a stored
    goal. */
module EditGoalView {
  import opened Common
  import opened Goals
  import opened ModelStore
  import opened GoalEditor

  /** The goal after `saveGoal` with form `d`: six fields come from the
      form (the key results filtered), everything else is kept. */
  function EditedGoal(g: Goal, d: GoalDraft): Goal {
    g.(title := d.title, description := d.description, area := d.area, timeframe := d.timeframe,
       targetDate := Some(d.targetDate), keyResults := TypedKeyResults(d.keyResults))
  }

  /** An edit keeps the goal's identity, creation time, completion flag and
      mission; afterwards it has a target date and only non-empty key results. */
  lemma EditKeepsGoalIdentity(g: Goal, d: GoalDraft)
    ensures var e := EditedGoal(g, d);
      && e.id == g.id && e.createdAt == g.createdAt && e.isCompleted == g.isCompleted
      && e.mission == g.mission && e.targetDate.Some?
      && forall i :: 0 <= i < |e.keyResults| ==> e.keyResults[i] != ""
  {
    var e := EditedGoal(g, d);
    forall i | 0 <= i < |e.keyResults|
      ensures e.keyResults[i] != ""
    {
      assert e.keyResults[i] in e.keyResults;
    }
  }

  /** Opening the editor on a goal with typed-in key results and saving it
      untouched gives the goal back, gaining only the default target date
      when it had none. */
  lemma UntouchedGoalEditRoundTrip(g: Goal, now: Time)
    requires g.title != "" && g.keyResults != []
    requires forall i :: 0 <= i < |g.keyResults| ==> g.keyResults[i] != ""
    ensures CanSave(DraftFromGoal(g, now))
    ensures EditedGoal(g, DraftFromGoal(g, now))
         == g.(targetDate := Some(if g.targetDate.Some? then g.targetDate.value else now + ThirtyDays))
  {
    TypedKeyResultsSpec(DraftFromGoal(g, now), "");
  }

  /** `saveGoal`: the goal is updated in place; nothing else changes. */
  method SaveGoalEdits(store: Store, id: Id, d: GoalDraft)
    requires store.Valid() && id in store.goals && CanSave(d)
    modifies store
    ensures store.Valid()
    ensures store.goals == old(store.goals)[id := EditedGoal(old(store.goals)[id], d)]
    ensures store.goals[id].keyResults == d.keyResults
    ensures store.tasks == old(store.tasks) && store.missions == old(store.missions)
    ensures store.records == old(store.records) && store.nextId == old(store.nextId)
  {
    var filtered := TypedKeyResults(d.keyResults);
    TypedKeyResultsSpec(d, "");
    var g := store.goals[id];
    g := g.(title := d.title, description := d.description, area := d.area, timeframe := d.timeframe,
            targetDate := Some(d.targetDate), keyResults := filtered);
    store.goals := store.goals[id := g];
  }
}
