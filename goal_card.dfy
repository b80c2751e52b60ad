/** Views/GoalCard.swift: the progress line of a goal card. */
module GoalCard {
  import opened Common
  import opened Tasks

  /** The two counts the card shows as "completed/total 任务". */
  datatype ProgressCounts = ProgressCounts(completed: nat, total: nat)

  /** The progress of a goal with related tasks `tasks`: no progress line
      when the goal has no tasks, otherwise how many of them are completed
      out of how many there are. */
  function Progress(tasks: seq<Task>): Option<ProgressCounts> {
    if tasks == [] then None
    else Some(ProgressCounts(|Filter(tasks, (t: Task) => t.isCompleted)|, |tasks|))
  }

  /** The progress line is shown exactly for a non-empty task list, so its
      ratio never divides by zero; the completed count never exceeds the
      total, reaches it exactly when every task is completed, and is zero
      exactly when none is. */
  lemma ProgressSpec(tasks: seq<Task>)
    ensures Progress(tasks).None? <==> tasks == []
    ensures Progress(tasks).Some? ==> var p := Progress(tasks).value;
      && p.total == |tasks| > 0
      && p.completed <= p.total
      && (p.completed == p.total <==> forall i :: 0 <= i < |tasks| ==> tasks[i].isCompleted)
      && (p.completed == 0 <==> forall i :: 0 <= i < |tasks| ==> !tasks[i].isCompleted)
  {
    FilterCount(tasks, (t: Task) => t.isCompleted);
  }

  /** Completing one more of the listed tasks raises the completed count by
      exactly one and leaves the total alone. */
  lemma {:induction false} ProgressAfterCompletion(tasks: seq<Task>, i: nat, now: Time)
    requires i < |tasks| && !tasks[i].isCompleted
    ensures var after := tasks[i := tasks[i].(isCompleted := true, modifiedAt := now)];
      Progress(after).Some? && Progress(tasks).Some?
      && Progress(after).value.completed == Progress(tasks).value.completed + 1
      && Progress(after).value.total == Progress(tasks).value.total
    decreases |tasks|
  {
    var after := tasks[i := tasks[i].(isCompleted := true, modifiedAt := now)];
    if i > 0 {
      ProgressAfterCompletion(tasks[1..], i - 1, now);
      assert after[1..] == tasks[1..][i - 1 := tasks[i].(isCompleted := true, modifiedAt := now)];
    } else {
      assert after[1..] == tasks[1..];
    }
  }

  /** Within the id range `[lo, hi)`, completing the incomplete task `id` of
      goal `g` keeps the number of the goal's tasks and adds one to the
      number of its completed tasks. */
  lemma {:induction false} CompletionCountsFrom(m: map<Id, Task>, lo: nat, hi: nat, id: Id, g: Id, now: Time)
    requires id in m && lo <= id < hi && m[id].goal == Some(g) && !m[id].isCompleted
    ensures var before := Filter(InIdOrder(m, lo, hi), (t: Task) => t.goal == Some(g));
            var after := Filter(InIdOrder(m[id := m[id].(isCompleted := true, modifiedAt := now)], lo, hi),
                                (t: Task) => t.goal == Some(g));
            && |after| == |before| > 0
            && |Filter(after, (t: Task) => t.isCompleted)| == |Filter(before, (t: Task) => t.isCompleted)| + 1
    decreases hi - lo
  {
    var m' := m[id := m[id].(isCompleted := true, modifiedAt := now)];
    var ofG := (t: Task) => t.goal == Some(g);
    var done := (t: Task) => t.isCompleted;
    if lo == id {
      InIdOrderOutside(m, lo + 1, hi, id, m'[id]);
      var rest := InIdOrder(m, lo + 1, hi);
      assert InIdOrder(m, lo, hi) == [m[id]] + rest;
      assert InIdOrder(m', lo, hi) == [m'[id]] + rest;
      assert ([m[id]] + rest)[1..] == rest;
      assert ([m'[id]] + rest)[1..] == rest;
      var fr := Filter(rest, ofG);
      assert Filter([m[id]] + rest, ofG) == [m[id]] + fr;
      assert Filter([m'[id]] + rest, ofG) == [m'[id]] + fr;
      assert ([m[id]] + fr)[1..] == fr;
      assert ([m'[id]] + fr)[1..] == fr;
    } else {
      CompletionCountsFrom(m, lo + 1, hi, id, g, now);
      var rest := InIdOrder(m, lo + 1, hi);
      var rest' := InIdOrder(m', lo + 1, hi);
      if lo in m {
        assert InIdOrder(m, lo, hi) == [m[lo]] + rest;
        assert InIdOrder(m', lo, hi) == [m[lo]] + rest';
        assert ([m[lo]] + rest)[1..] == rest;
        assert ([m[lo]] + rest')[1..] == rest';
        var fr, fr' := Filter(rest, ofG), Filter(rest', ofG);
        if ofG(m[lo]) {
          assert Filter([m[lo]] + rest, ofG) == [m[lo]] + fr;
          assert Filter([m[lo]] + rest', ofG) == [m[lo]] + fr';
          assert ([m[lo]] + fr)[1..] == fr;
          assert ([m[lo]] + fr')[1..] == fr';
        }
      }
    }
  }

  /** Completing a task of goal `g` in the store: `before` is the goal's
      `relatedTasks` over the task map before `Store.CompleteTask`, and
      `after` over the map it leaves, with the id bound one higher. The card
      of `g` then shows the same total and one more completed task. */
  lemma CompletionRaisesGoalProgress(tasks: map<Id, Task>, bound: nat, id: Id, g: Id, now: Time)
    requires forall k :: k in tasks ==> k < bound
    requires id in tasks && tasks[id].goal == Some(g) && !tasks[id].isCompleted
    ensures var before := Filter(InIdOrder(tasks, 0, bound), (t: Task) => t.goal == Some(g));
            var after := Filter(InIdOrder(tasks[id := tasks[id].(isCompleted := true, modifiedAt := now)], 0, bound + 1),
                                (t: Task) => t.goal == Some(g));
            && Progress(before).Some? && Progress(after).Some?
            && Progress(after).value.completed == Progress(before).value.completed + 1
            && Progress(after).value.total == Progress(before).value.total
  {
    var m' := tasks[id := tasks[id].(isCompleted := true, modifiedAt := now)];
    InIdOrderBeyond(m', 0, bound, bound + 1);
    CompletionCountsFrom(tasks, 0, bound, id, g, now);
  }
}
