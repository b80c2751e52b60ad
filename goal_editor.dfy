/** The goal editor shared by Views/NewGoalView.swift and
    Views/EditGoalView.swift: the form, its list of key-result fields, the
    save condition, and the key results that a save keeps. */
module GoalEditor {
  import opened Common
  import opened Goals

  /** The `@State` of a goal form. */
  datatype GoalDraft = GoalDraft(
    title: string,
    description: string,
    area: LifeArea,
    timeframe: GoalTimeframe,
    targetDate: Time,
    keyResults: seq<string>)

  /** `NewGoalView`: an empty career goal, medium term, due in thirty days,
      with one empty key-result field. */
  function NewGoalDraft(now: Time): GoalDraft {
    GoalDraft("", "", Career, MediumTerm, now + ThirtyDays, [""])
  }

  /** `EditGoalView(goal:)`: the goal's own values; thirty days from now when
      it has no target date, and one empty field when it has no key results. */
  function DraftFromGoal(g: Goal, now: Time): GoalDraft {
    GoalDraft(g.title, g.description, g.area, g.timeframe,
              if g.targetDate.Some? then g.targetDate.value else now + ThirtyDays,
              if g.keyResults == [] then [""] else g.keyResults)
  }

  /** The Save button is enabled only with a title and no empty key-result
      field. */
  predicate CanSave(d: GoalDraft) {
    d.title != "" && forall i :: 0 <= i < |d.keyResults| ==> d.keyResults[i] != ""
  }

  /** `keyResults.filter { !$0.isEmpty }`: the key results a save stores. */
  function TypedKeyResults(keyResults: seq<string>): (r: seq<string>)
    ensures forall k :: k in r ==> k != ""
  {
    Filter(keyResults, (k: string) => k != "")
  }

  /** The stored key results are exactly the non-empty fields, in order and
      with repeats; when the form can be saved, that is every field. */
  lemma TypedKeyResultsSpec(d: GoalDraft, k: string)
    ensures k in TypedKeyResults(d.keyResults) <==> k in d.keyResults && k != ""
    ensures multiset(TypedKeyResults(d.keyResults))[k] == if k == "" then 0 else multiset(d.keyResults)[k]
    ensures CanSave(d) ==> TypedKeyResults(d.keyResults) == d.keyResults
  {
    FilterMember(d.keyResults, (k: string) => k != "", k);
    FilterMultiset(d.keyResults, (k: string) => k != "", k);
    if CanSave(d) {
      FilterAll(d.keyResults, (k: string) => k != "");
    }
  }

  /** Every form starts with at least one key-result field. A new form, and
      the form of a goal without key results, cannot be saved until that
      field is typed in. */
  lemma DraftsStartWithAField(g: Goal, now: Time)
    ensures |NewGoalDraft(now).keyResults| >= 1 && |DraftFromGoal(g, now).keyResults| >= 1
    ensures !CanSave(NewGoalDraft(now))
    ensures g.keyResults == [] ==> !CanSave(DraftFromGoal(g, now))
    ensures NewGoalDraft(now).targetDate == now + 86400 * 30
  {
    assert NewGoalDraft(now).keyResults[0] == "";
    if g.keyResults == [] {
      assert DraftFromGoal(g, now).keyResults[0] == "";
    }
  }

  /** A goal form whose key-result list grows and shrinks in place. */
  class GoalForm {
    var draft: GoalDraft

    /** The form always shows at least one key-result field. */
    ghost predicate Valid()
      reads this
    {
      |draft.keyResults| >= 1
    }

    /** `NewGoalView`. */
    constructor New(now: Time)
      ensures Valid() && draft == NewGoalDraft(now)
    {
      draft := NewGoalDraft(now);
    }

    /** `EditGoalView(goal:)`. */
    constructor FromGoal(g: Goal, now: Time)
      ensures Valid() && draft == DraftFromGoal(g, now)
    {
      draft := DraftFromGoal(g, now);
    }

    /** "添加": one more, empty, key-result field at the end. */
    method AddKeyResult()
      requires Valid()
      modifies this
      ensures Valid()
      ensures draft == old(draft).(keyResults := old(draft.keyResults) + [""])
      ensures !CanSave(draft)
    {
      draft := draft.(keyResults := draft.keyResults + [""]);
      assert draft.keyResults[|draft.keyResults| - 1] == "";
    }

    /** The minus button of field `index`, shown only while there is more
      than one field: that field is removed and the others keep their order. */
    method RemoveKeyResult(index: nat)
      requires Valid() && index < |draft.keyResults| && |draft.keyResults| > 1
      modifies this
      ensures Valid()
      ensures draft == old(draft).(keyResults := old(draft.keyResults)[..index] + old(draft.keyResults)[index + 1..])
      ensures |draft.keyResults| == |old(draft.keyResults)| - 1
    {
      draft := draft.(keyResults := draft.keyResults[..index] + draft.keyResults[index + 1..]);
    }
  }
}
