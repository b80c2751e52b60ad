/** Views/NewTaskView.swift: the passive-phrase check on the title and
    saving a new task into the store. */
module NewTaskView {
  import opened Common
  import opened Tasks
  import opened ModelStore
  import opened TaskEditor

  /** Whether `s` begins with `p`. */
  predicate StartsWith(s: string, p: string) {
    |p| <= |s| && s[..|p|] == p
  }

  /** `String.contains`: whether `p` occurs somewhere in `s`. */
  predicate Contains(s: string, p: string)
    decreases |s|
  {
    StartsWith(s, p) || (|s| > 0 && Contains(s[1..], p))
  }

  /** `p` occurs in `s` at position `i`. */
  predicate OccursAt(s: string, p: string, i: int) {
    0 <= i <= |s| - |p| && s[i..i + |p|] == p
  }

  /** `Contains` holds exactly when `p` occurs at some position of `s`. */
  lemma {:induction false} ContainsAt(s: string, p: string)
    ensures Contains(s, p) <==> exists i :: OccursAt(s, p, i)
    decreases |s|
  {
    if StartsWith(s, p) {
      assert OccursAt(s, p, 0);
    } else if |s| > 0 {
      ContainsAt(s[1..], p);
      if Contains(s[1..], p) {
        var i :| OccursAt(s[1..], p, i);
        assert s[i + 1..i + 1 + |p|] == s[1..][i..i + |p|];
        assert OccursAt(s, p, i + 1);
      }
      if exists i :: OccursAt(s, p, i) {
        var i :| OccursAt(s, p, i);
        assert i != 0;
        assert s[1..][i - 1..i - 1 + |p|] == s[i..i + |p|];
        assert OccursAt(s[1..], p, i - 1);
      }
    }
  }

  /** `replacingOccurrences(of: p, with: r)`: every occurrence of `p`,
      scanning left to right without overlap, becomes `r`. */
  function ReplaceAll(s: string, p: string, r: string): string
    requires |p| > 0
    decreases |s|
  {
    if |s| < |p| then s
    else if StartsWith(s, p) then r + ReplaceAll(s[|p|..], p, r)
    else [s[0]] + ReplaceAll(s[1..], p, r)
  }

  /** A title without the pattern comes back unchanged. */
  lemma {:induction false} ReplaceAllAbsent(s: string, p: string, r: string)
    requires |p| > 0 && !Contains(s, p)
    ensures ReplaceAll(s, p, r) == s
    decreases |s|
  {
    if |s| >= |p| {
      ReplaceAllAbsent(s[1..], p, r);
    }
  }

  /** The pattern and its replacement cannot recombine into the pattern:
      the pattern's first character is not in the replacement, and the
      replacement's first character is not in the rest of the pattern. */
  predicate NoRecombination(p: string, r: string) {
    |p| > 0 && |r| > 0 && p[0] !in r && r[0] !in p[1..]
  }

  /** If a replaced text begins with a string that avoids the replacement's
      first character, the original text began with it too. */
  lemma {:induction false} ReplaceAllKeepsPrefix(t: string, p: string, r: string, q: string)
    requires NoRecombination(p, r) && r[0] !in q
    ensures StartsWith(ReplaceAll(t, p, r), q) ==> StartsWith(t, q)
    decreases |t|
  {
    if |t| >= |p| && |q| > 0 {
      var out := ReplaceAll(t, p, r);
      if StartsWith(t, p) {
        assert out == r + ReplaceAll(t[|p|..], p, r);
        if |q| <= |out| {
          assert out[..|q|][0] == r[0];
        }
        assert !StartsWith(out, q);
      } else {
        var rest := ReplaceAll(t[1..], p, r);
        assert out == [t[0]] + rest;
        ReplaceAllKeepsPrefix(t[1..], p, r, q[1..]);
        if StartsWith(out, q) {
          assert StartsWith(rest, q[1..]);
          assert t == [t[0]] + t[1..];
        }
      }
    }
  }

  /** A text whose leading part never starts the pattern contains the pattern
      only inside what follows. */
  lemma {:induction false} ContainsAfterPrefix(a: string, b: string, p: string)
    requires |p| > 0 && p[0] !in a
    requires Contains(a + b, p)
    ensures Contains(b, p)
    decreases |a|
  {
    if |a| > 0 {
      assert (a + b)[0] == a[0];
      if |p| <= |a + b| {
        assert (a + b)[..|p|][0] == a[0];
      }
      assert (a + b)[1..] == a[1..] + b;
      ContainsAfterPrefix(a[1..], b, p);
    } else {
      assert a + b == b;
    }
  }

  /** After the replacement no occurrence of the pattern is left. */
  lemma {:induction false} ReplaceAllRemoves(s: string, p: string, r: string)
    requires NoRecombination(p, r)
    ensures !Contains(ReplaceAll(s, p, r), p)
    decreases |s|
  {
    var out := ReplaceAll(s, p, r);
    if |s| < |p| {
      if Contains(s, p) {
        ContainsAt(s, p);
      }
    } else if StartsWith(s, p) {
      ReplaceAllRemoves(s[|p|..], p, r);
      if Contains(out, p) {
        ContainsAfterPrefix(r, ReplaceAll(s[|p|..], p, r), p);
      }
    } else {
      var rest := ReplaceAll(s[1..], p, r);
      ReplaceAllRemoves(s[1..], p, r);
      assert out == [s[0]] + rest;
      if StartsWith(out, p) {
        assert StartsWith(rest, p[1..]);
        ReplaceAllKeepsPrefix(s[1..], p, r, p[1..]);
        assert false;
      }
      assert out[1..] == rest;
    }
  }

  /** One entry of the passive-phrase dictionary. */
  datatype PassiveRule = PassiveRule(passive: string, active: string)

  /** `passivePatterns`: passive phrasings and the active ones suggested
      instead. */
  const PassiveTable: seq<PassiveRule> := [
    PassiveRule("应该", "我将"),
    PassiveRule("需要", "我要"),
    PassiveRule("必须", "我决定"),
    PassiveRule("希望能", "我将"),
    PassiveRule("可能要", "我计划"),
    PassiveRule("要求", "我负责")
  ]

  /** No rule of the table can leave its own pattern behind. */
  lemma PassiveTableSafe(rule: PassiveRule)
    requires rule in PassiveTable
    ensures NoRecombination(rule.passive, rule.active)
  {
  }

  /** No phrase of the rules `table` occurs in `title`. */
  predicate NoPassivePhrase(title: string, table: seq<PassiveRule>) {
    forall rule :: rule in table ==> !Contains(title, rule.passive)
  }

  /** `improved` is `title` with every occurrence of one phrase of `table`
      that `title` contains replaced by its active form, so that phrase is gone. */
  predicate ActiveRewrite(title: string, improved: string, table: seq<PassiveRule>) {
    exists rule :: (rule in table && |rule.passive| > 0 && Contains(title, rule.passive)
      && improved == ReplaceAll(title, rule.passive, rule.active)
      && !Contains(improved, rule.passive))
  }

  /** No rule of `rules` can leave its own phrase behind. */
  predicate SafeRules(rules: seq<PassiveRule>) {
    forall rule :: rule in rules ==> NoRecombination(rule.passive, rule.active)
  }

  /** A permutation of the table holds the same rules, none of which can
      leave its own phrase behind. */
  lemma SameRules(order: seq<PassiveRule>)
    requires multiset(order) == multiset(PassiveTable)
    ensures forall rule :: rule in order <==> rule in PassiveTable
    ensures SafeRules(order)
  {
    forall rule
      ensures rule in order <==> rule in PassiveTable
    {
      assert rule in order <==> rule in multiset(order);
      assert rule in PassiveTable <==> rule in multiset(PassiveTable);
    }
    forall rule | rule in order
      ensures NoRecombination(rule.passive, rule.active)
    {
      PassiveTableSafe(rule);
    }
  }

  /** Walking a permutation of the table finds the same phrases and the
      same rewrites as the table itself. */
  lemma SameRulesSameVerdict(order: seq<PassiveRule>, title: string, improved: string)
    requires multiset(order) == multiset(PassiveTable)
    ensures NoPassivePhrase(title, order) <==> NoPassivePhrase(title, PassiveTable)
    ensures ActiveRewrite(title, improved, order) <==> ActiveRewrite(title, improved, PassiveTable)
  {
    SameRules(order);
  }

  /** `analyzeTaskTitle`: walk the dictionary's rules in its (unspecified)
      iteration order `order` and, at the first phrase the title contains,
      suggest the title with every occurrence of that one phrase replaced by
      its active form. No suggestion means the alert is not raised. The
      sheet passes a permutation of the table, whose rules are safe. */
  method AnalyzeTaskTitle(title: string, order: seq<PassiveRule>) returns (suggestion: Option<string>)
    requires SafeRules(order)
    ensures suggestion.None? <==> NoPassivePhrase(title, order)
    ensures suggestion.Some? ==>
      exists i :: (0 <= i < |order|
        && Contains(title, order[i].passive)
        && (forall j :: 0 <= j < i ==> !Contains(title, order[j].passive))
        && suggestion.value == ReplaceAll(title, order[i].passive, order[i].active)
        && !Contains(suggestion.value, order[i].passive))
    ensures suggestion.Some? ==> ActiveRewrite(title, suggestion.value, order)
  {
    var i := 0;
    while i < |order|
      invariant 0 <= i <= |order|
      invariant forall j :: 0 <= j < i ==> !Contains(title, order[j].passive)
    {
      var rule := order[i];
      if Contains(title, rule.passive) {
        assert rule in order;
        var improved := ReplaceAll(title, rule.passive, rule.active);
        ReplaceAllRemoves(title, rule.passive, rule.active);
        return Some(improved);
      }
      i := i + 1;
    }
    forall rule | rule in order
      ensures !Contains(title, rule.passive)
    {
      var j :| 0 <= j < |order| && order[j] == rule;
    }
    return None;
  }

  /** `saveTask`: insert exactly one new, incomplete task carrying the form's
      values, linked to the selected goal when that id names a stored goal
      and to no goal otherwise; it is appended to the store order. */
  method SaveNewTask(store: Store, d: TaskDraft, now: Time) returns (id: Id)
    requires store.Valid() && CanSave(d)
    modifies store
    ensures store.Valid()
    ensures id !in old(store.tasks)
    ensures store.tasks == old(store.tasks)[id := Task(id, d.title, d.description, false, Some(d.dueDate),
        now, now, d.isProactive, d.importance, d.urgency,
        Linked(d.selectedGoalId, store.goals))]
    ensures store.TaskList() == old(store.TaskList()) + [store.tasks[id]]
    ensures store.goals == old(store.goals) && store.missions == old(store.missions)
    ensures store.records == old(store.records)
  {
    var task := NewTask(0, d.title, now, d.description, dueDate := Some(d.dueDate),
                        isProactive := d.isProactive, importance := d.importance, urgency := d.urgency);
    store.LookupGoalSpec(d.selectedGoalId);
    task := task.(goal := store.LookupGoal(d.selectedGoalId));
    id := store.InsertTask(task);
  }

  /** The state of the new-task sheet: the form, and the passive-phrase
      alert with the title it proposes. */
  class NewTaskSheet {
    var draft: TaskDraft
    var showingPassiveAlert: bool
    var improvedTitle: string

    /** `NewTaskView(preselectedGoalId:)`. */
    constructor (preselectedGoalId: Option<Id>, now: Time)
      ensures draft == NewTaskDraft(preselectedGoalId, now)
      ensures !showingPassiveAlert && improvedTitle == ""
    {
      draft := NewTaskDraft(preselectedGoalId, now);
      showingPassiveAlert := false;
      improvedTitle := "";
    }

    /** `.onChange(of: title)`: the title is replaced and re-analysed; a
        suggestion raises the alert and becomes the proposed title, and no
        suggestion leaves the alert and the proposal as they were.
        `onChange` fires only when the title really changes. */
    method EditTitle(title: string, order: seq<PassiveRule>)
      requires title != draft.title
      requires multiset(order) == multiset(PassiveTable)
      modifies this
      ensures draft == old(draft).(title := title)
      ensures NoPassivePhrase(title, order) ==>
        showingPassiveAlert == old(showingPassiveAlert) && improvedTitle == old(improvedTitle)
      ensures !NoPassivePhrase(title, order) ==> showingPassiveAlert && ActiveRewrite(title, improvedTitle, order)
    {
      SameRules(order);
      var suggestion := AnalyzeTaskTitle(title, order);
      draft := draft.(title := title);
      if suggestion.Some? {
        assert ActiveRewrite(title, suggestion.value, order);
        improvedTitle, showingPassiveAlert := suggestion.value, true;
      }
    }

    /** "采用建议": the alert closes and the proposed title replaces the
        typed one. When that changes the title, `onChange` analyses it again
        like any other edit, so a proposal that still holds another passive
        phrase raises the alert once more with a rewrite of it; when the
        title was already the proposal, nothing fires and the alert stays
        closed. */
    method AdoptSuggestion(order: seq<PassiveRule>)
      requires multiset(order) == multiset(PassiveTable)
      modifies this
      ensures draft == old(draft).(title := old(improvedTitle))
      ensures NoPassivePhrase(old(improvedTitle), order) ==>
        !showingPassiveAlert && improvedTitle == old(improvedTitle)
      ensures old(improvedTitle) == old(draft.title) ==>
        !showingPassiveAlert && improvedTitle == old(improvedTitle)
      ensures old(improvedTitle) != old(draft.title) && !NoPassivePhrase(old(improvedTitle), order) ==>
        showingPassiveAlert && ActiveRewrite(old(improvedTitle), improvedTitle, order)
    {
      showingPassiveAlert := false;
      if improvedTitle != draft.title {
        EditTitle(improvedTitle, order);
      }
    }

    /** "保持原样": the alert closes and the title stays as typed. */
    method KeepOriginal()
      modifies this
      ensures !showingPassiveAlert
      ensures draft == old(draft) && improvedTitle == old(improvedTitle)
    {
      showingPassiveAlert := false;
    }
  }
}
