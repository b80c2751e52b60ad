/** Views/NewGoalView.swift: saving a new goal into the store. */
module NewGoalView {
  import opened Common
  import opened Goals
  import opened ModelStore
  import opened GoalEditor

  /** `saveGoal`: insert exactly one new, incomplete goal with the form's
      values and its non-empty key results, belonging to `mission` when the
      sheet was opened for one. It is appended to the store order. */
  method SaveNewGoal(store: Store, d: GoalDraft, mission: Option<Id>, now: Time) returns (id: Id)
    requires store.Valid() && CanSave(d)
    requires mission.Some? ==> mission.value in store.missions
    modifies store
    ensures store.Valid()
    ensures id !in old(store.goals)
    ensures store.goals == old(store.goals)[id := Goal(id, d.title, d.description, d.area, d.timeframe, now,
        Some(d.targetDate), false, TypedKeyResults(d.keyResults), mission)]
    ensures store.goals[id].keyResults == d.keyResults
    ensures store.GoalList() == old(store.GoalList()) + [store.goals[id]]
    ensures store.tasks == old(store.tasks) && store.missions == old(store.missions)
    ensures store.records == old(store.records)
  {
    var filtered := TypedKeyResults(d.keyResults);
    TypedKeyResultsSpec(d, "");
    var goal := NewGoal(0, d.title, d.area, d.timeframe, now, d.description,
                        targetDate := Some(d.targetDate), keyResults := filtered);
    if mission.Some? {
      goal := goal.(mission := mission);
    }
    id := store.InsertGoal(goal);
  }
}
