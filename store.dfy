/** The SwiftData model context as an in-memory store: the four entity
    kinds keyed by id, one authoritative link per relationship edge, the
    reverse collections as queries, and the delete rules declared on the
    relationships (cascade Task -> EmotionRecord, nullify everywhere else). */
module ModelStore {
  import opened Common
  import opened Tasks
  import opened Goals
  import opened EmotionRecords
  import opened LifeMissions

  /** Deleting the key `k` from a task map whose keys are the tasks' ids
      drops exactly the task with that id from the listing. */
  lemma {:induction false} TaskListRemove(m: map<Id, Task>, lo: nat, hi: nat, k: Id)
    requires forall j :: j in m ==> m[j].id == j
    ensures InIdOrder(m - {k}, lo, hi) == Filter(InIdOrder(m, lo, hi), (t: Task) => t.id != k)
    decreases hi - lo
  {
    if lo < hi {
      TaskListRemove(m, lo + 1, hi, k);
    }
  }

  /** Every entity is stored under its own id, and every id is below `bound`. */
  ghost predicate Keyed(tasks: map<Id, Task>, goals: map<Id, Goal>, missions: map<Id, LifeMission>,
                        records: map<Id, EmotionRecord>, bound: nat)
  {
    && (forall k :: k in tasks ==> tasks[k].id == k && k < bound)
    && (forall k :: k in goals ==> goals[k].id == k && k < bound)
    && (forall k :: k in missions ==> missions[k].id == k && k < bound)
    && (forall k :: k in records ==> records[k].id == k && k < bound)
  }

  /** Every task-to-goal and goal-to-mission link names a stored entity. */
  ghost predicate LinksLive(tasks: map<Id, Task>, goals: map<Id, Goal>, missions: map<Id, LifeMission>)
  {
    && (forall k :: k in tasks && tasks[k].goal.Some? ==> tasks[k].goal.value in goals)
    && (forall k :: k in goals && goals[k].mission.Some? ==> goals[k].mission.value in missions)
  }

  /** Every linked emotion record belongs to a stored, completed task, and
      no two records link to the same task (`Task.emotionRecord` is to-one). */
  ghost predicate RecordsOwned(tasks: map<Id, Task>, records: map<Id, EmotionRecord>)
  {
    && (forall k :: k in records && records[k].task.Some? ==>
          records[k].task.value in tasks && tasks[records[k].task.value].isCompleted)
    && (forall r, r' ::
          r in records && r' in records && records[r].task.Some? && records[r].task == records[r'].task
          ==> r == r')
  }

  ghost predicate StoreInvariant(tasks: map<Id, Task>, goals: map<Id, Goal>, missions: map<Id, LifeMission>,
                                 records: map<Id, EmotionRecord>, bound: nat)
  {
    Keyed(tasks, goals, missions, records, bound) && LinksLive(tasks, goals, missions) && RecordsOwned(tasks, records)
  }

  /** Completing task `id` and linking a fresh record to it keeps the records
      owned: the older record of the task, if any, is unlinked first. */
  lemma CompletionKeepsRecordsOwned(tasks: map<Id, Task>, records: map<Id, EmotionRecord>, id: Id,
                                    rid: Id, record: EmotionRecord, now: Time)
    requires RecordsOwned(tasks, records) && id in tasks && rid !in records
    requires record.task == Some(id)
    ensures var unlinked := map k | k in records ::
              if records[k].task == Some(id) then records[k].(task := None) else records[k];
            RecordsOwned(tasks[id := tasks[id].(isCompleted := true, modifiedAt := now)], unlinked[rid := record])
  {
  }

  /** Completing task `id` and inserting a fresh record under the next id
      keeps the whole invariant. */
  lemma CompletionKeepsInvariant(tasks: map<Id, Task>, goals: map<Id, Goal>, missions: map<Id, LifeMission>,
                                 records: map<Id, EmotionRecord>, bound: nat, id: Id,
                                 record: EmotionRecord, now: Time)
    requires StoreInvariant(tasks, goals, missions, records, bound) && id in tasks
    requires record.id == bound && record.task == Some(id)
    ensures var unlinked := map k | k in records ::
              if records[k].task == Some(id) then records[k].(task := None) else records[k];
            StoreInvariant(tasks[id := tasks[id].(isCompleted := true, modifiedAt := now)], goals, missions,
                           unlinked[bound := record], bound + 1)
  {
    CompletionKeepsRecordsOwned(tasks, records, id, bound, record, now);
  }

  /** Unlinking every task from goal `id` and then removing the goal keeps
      the invariant: no link is left naming the removed goal. */
  lemma NullifyGoalKeepsInvariant(tasks: map<Id, Task>, goals: map<Id, Goal>, missions: map<Id, LifeMission>,
                                  records: map<Id, EmotionRecord>, bound: nat, id: Id)
    requires StoreInvariant(tasks, goals, missions, records, bound)
    ensures var unlinked := map k | k in tasks ::
              if tasks[k].goal == Some(id) then tasks[k].(goal := None) else tasks[k];
            StoreInvariant(unlinked, goals - {id}, missions, records, bound)
  {
  }

  /** Unlinking every goal from mission `id` and then removing the mission
      keeps the invariant. */
  lemma NullifyMissionKeepsInvariant(tasks: map<Id, Task>, goals: map<Id, Goal>, missions: map<Id, LifeMission>,
                                     records: map<Id, EmotionRecord>, bound: nat, id: Id)
    requires StoreInvariant(tasks, goals, missions, records, bound)
    ensures var unlinked := map k | k in goals ::
              if goals[k].mission == Some(id) then goals[k].(mission := None) else goals[k];
            StoreInvariant(tasks, unlinked, missions - {id}, records, bound)
  {
  }

  class Store {
    var tasks: map<Id, Task>
    var goals: map<Id, Goal>
    var missions: map<Id, LifeMission>
    var records: map<Id, EmotionRecord>
    /** Every id in use is below this one; it models the uniqueness of `UUID()`. */
    var nextId: nat

    /** Ids match keys, every link names a live entity, a task owns at most
        one emotion record, and only a completed task owns one. */
    ghost predicate Valid()
      reads this
    {
      StoreInvariant(tasks, goals, missions, records, nextId)
    }

    /** An empty store. */
    constructor ()
      ensures Valid()
      ensures tasks == map[] && goals == map[] && missions == map[] && records == map[]
    {
      tasks, goals, missions, records := map[], map[], map[], map[];
      nextId := 0;
    }

    /** `@Query var tasks: [Task]`: every task, in store order. */
    function TaskList(): seq<Task>
      reads this
    {
      InIdOrder(tasks, 0, nextId)
    }

    /** `@Query var goals: [Goal]`: every goal, in store order. */
    function GoalList(): seq<Goal>
      reads this
    {
      InIdOrder(goals, 0, nextId)
    }

    /** `@Query var missions: [LifeMission]`: every mission, in store order. */
    function MissionList(): seq<LifeMission>
      reads this
    {
      InIdOrder(missions, 0, nextId)
    }

    /** The task list holds exactly the stored tasks. */
    lemma TaskListMember(t: Task)
      requires Valid()
      ensures t in TaskList() <==> t.id in tasks && tasks[t.id] == t
    {
      InIdOrderMember(tasks, 0, nextId, t);
    }

    /** The task list is in strictly increasing id order, so no task is
        listed twice. */
    lemma TaskListIdsIncrease()
      requires Valid()
      ensures KeysIncrease(TaskList(), (t: Task) => t.id)
    {
      InIdOrderKeysIncrease(tasks, 0, nextId, (t: Task) => t.id);
    }

    /** The goal list holds exactly the stored goals. */
    lemma GoalListMember(g: Goal)
      requires Valid()
      ensures g in GoalList() <==> g.id in goals && goals[g.id] == g
    {
      InIdOrderMember(goals, 0, nextId, g);
    }

    /** The mission list holds exactly the stored missions. */
    lemma MissionListMember(m: LifeMission)
      requires Valid()
      ensures m in MissionList() <==> m.id in missions && missions[m.id] == m
    {
      InIdOrderMember(missions, 0, nextId, m);
    }

    /** `Goal.relatedTasks`, the inverse of `Task.relatedGoal`. */
    function RelatedTasks(g: Id): seq<Task>
      reads this
    {
      Filter(TaskList(), (t: Task) => t.goal == Some(g))
    }

    /** `LifeMission.relatedGoals`, the inverse of `Goal.mission`. */
    function RelatedGoals(m: Id): seq<Goal>
      reads this
    {
      Filter(GoalList(), (g: Goal) => g.mission == Some(m))
    }

    /** `Task.emotionRecord`, the inverse of `EmotionRecord.task`. */
    ghost function EmotionRecordOf(t: Id): Option<EmotionRecord>
      reads this
    {
      if exists k :: k in records && records[k].task == Some(t) then
        var k :| k in records && records[k].task == Some(t);
        Some(records[k])
      else None
    }

    /** Inverse consistency of Goal.relatedTasks / Task.relatedGoal: a task is
        among a goal's related tasks exactly when it is stored and its goal
        link names that goal. */
    lemma RelatedTasksInverse(g: Id, t: Task)
      requires Valid()
      ensures t in RelatedTasks(g) <==> t.id in tasks && tasks[t.id] == t && t.goal == Some(g)
    {
      FilterMember(TaskList(), (t: Task) => t.goal == Some(g), t);
      TaskListMember(t);
    }

    /** Inverse consistency of LifeMission.relatedGoals / Goal.mission. */
    lemma RelatedGoalsInverse(m: Id, g: Goal)
      requires Valid()
      ensures g in RelatedGoals(m) <==> g.id in goals && goals[g.id] == g && g.mission == Some(m)
    {
      FilterMember(GoalList(), (g: Goal) => g.mission == Some(m), g);
      GoalListMember(g);
    }

    /** Inverse consistency of Task.emotionRecord / EmotionRecord.task: a
        task's record is the one stored record that links to it, and a task
        that owns a record is completed. */
    lemma EmotionRecordInverse(t: Id, r: EmotionRecord)
      requires Valid()
      ensures EmotionRecordOf(t) == Some(r) <==> r.id in records && records[r.id] == r && r.task == Some(t)
      ensures EmotionRecordOf(t).Some? ==> t in tasks && tasks[t].isCompleted
    {
    }

    /** `goals.first(where: { $0.id == goalId })` as the editors use it: the
        id of the matching stored goal, or no goal when nothing was selected. */
    function LookupGoal(selected: Option<Id>): (r: Option<Id>)
      reads this
    {
      match selected
      case None => None
      case Some(x) =>
        match FirstWhere(GoalList(), (g: Goal) => g.id == x)
        case Some(g) => Some(g.id)
        case None => None
    }

    /** The lookup links a goal exactly when the selected id belongs to a
        stored goal, and then links that very goal; otherwise it yields no goal. */
    lemma LookupGoalSpec(selected: Option<Id>)
      requires Valid()
      ensures LookupGoal(selected) == if selected.Some? && selected.value in goals then selected else None
    {
      if selected.Some? {
        var x := selected.value;
        var found := FirstWhere(GoalList(), (g: Goal) => g.id == x);
        if found.Some? {
          GoalListMember(found.value);
        } else if x in goals {
          GoalListMember(goals[x]);
        }
      }
    }

    /** `modelContext.insert` of a new task: the store assigns its id and the
        task is appended to the store order. */
    method InsertTask(t: Task) returns (id: Id)
      requires Valid()
      requires t.goal.Some? ==> t.goal.value in goals
      modifies this
      ensures Valid()
      ensures id == old(nextId) && id !in old(tasks)
      ensures tasks == old(tasks)[id := t.(id := id)]
      ensures TaskList() == old(TaskList()) + [t.(id := id)]
      ensures goals == old(goals) && missions == old(missions) && records == old(records)
    {
      id := nextId;
      InIdOrderAppend(tasks, 0, nextId, t.(id := id));
      tasks := tasks[id := t.(id := id)];
      nextId := nextId + 1;
    }

    /** `modelContext.insert` of a new goal. */
    method InsertGoal(g: Goal) returns (id: Id)
      requires Valid()
      requires g.mission.Some? ==> g.mission.value in missions
      modifies this
      ensures Valid()
      ensures id == old(nextId) && id !in old(goals)
      ensures goals == old(goals)[id := g.(id := id)]
      ensures GoalList() == old(GoalList()) + [g.(id := id)]
      ensures tasks == old(tasks) && missions == old(missions) && records == old(records)
    {
      id := nextId;
      InIdOrderAppend(goals, 0, nextId, g.(id := id));
      goals := goals[id := g.(id := id)];
      nextId := nextId + 1;
    }

    /** `modelContext.insert` of a new mission. */
    method InsertMission(m: LifeMission) returns (id: Id)
      requires Valid()
      modifies this
      ensures Valid()
      ensures id == old(nextId) && id !in old(missions)
      ensures missions == old(missions)[id := m.(id := id)]
      ensures MissionList() == old(MissionList()) + [m.(id := id)]
      ensures tasks == old(tasks) && goals == old(goals) && records == old(records)
    {
      id := nextId;
      InIdOrderAppend(missions, 0, nextId, m.(id := id));
      missions := missions[id := m.(id := id)];
      nextId := nextId + 1;
    }

    /** Completing a task as one unit: the flag is set, `modifiedAt` is
        touched, and exactly one new emotion record linked to the task is
        inserted. The to-one inverse `Task.emotionRecord` then names the new
        record, so a record the task owned before loses its link. */
    method CompleteTask(id: Id, emotion: EmotionType, note: Option<string>, now: Time)
      returns (rid: Id)
      requires Valid() && id in tasks
      modifies this
      ensures Valid()
      ensures tasks == old(tasks)[id := old(tasks)[id].(isCompleted := true, modifiedAt := now)]
      ensures rid == old(nextId) && rid !in old(records)
      ensures records.Keys == old(records.Keys) + {rid}
      ensures records[rid] == EmotionRecord(rid, emotion, note, now, Some(id))
      ensures forall k :: k in old(records) ==>
        records[k] == if old(records)[k].task == Some(id) then old(records)[k].(task := None) else old(records)[k]
      ensures EmotionRecordOf(id) == Some(records[rid])
      ensures goals == old(goals) && missions == old(missions) && nextId == old(nextId) + 1
    {
      rid := nextId;
      var unlinked := map k | k in records ::
        if records[k].task == Some(id) then records[k].(task := None) else records[k];
      var record := NewEmotionRecord(rid, emotion, now, note, Some(id));
      CompletionKeepsInvariant(tasks, goals, missions, records, nextId, id, record, now);
      tasks, records, nextId := tasks[id := tasks[id].(isCompleted := true, modifiedAt := now)], unlinked[rid := record], nextId + 1;
    }

    /** `modelContext.delete(task)`: the task's emotion record goes with it
        (cascade); its goal survives and merely stops listing it (nullify). */
    method DeleteTask(id: Id)
      requires Valid() && id in tasks
      modifies this
      ensures Valid()
      ensures tasks == old(tasks) - {id}
      ensures records == map k | k in old(records) && old(records)[k].task != Some(id) :: old(records)[k]
      ensures EmotionRecordOf(id) == None
      ensures goals == old(goals) && missions == old(missions) && nextId == old(nextId)
      ensures TaskList() == Filter(old(TaskList()), (t: Task) => t.id != id)
      ensures forall g: Id :: RelatedTasks(g) == Filter(old(RelatedTasks(g)), (t: Task) => t.id != id)
    {
      ghost var before := TaskList();
      TaskListRemove(tasks, 0, nextId, id);
      tasks := tasks - {id};
      records := map k | k in records && records[k].task != Some(id) :: records[k];
      forall g: Id ensures RelatedTasks(g) == Filter(Filter(before, (t: Task) => t.goal == Some(g)), (t: Task) => t.id != id) {
        FilterCommute(before, (t: Task) => t.id != id, (t: Task) => t.goal == Some(g));
      }
    }

    /** `modelContext.delete(goal)`: every task linked to it loses the link
        (nullify) and survives with all its other fields; the goal's mission
        survives untouched. */
    method DeleteGoal(id: Id)
      requires Valid() && id in goals
      modifies this
      ensures Valid()
      ensures goals == old(goals) - {id}
      ensures tasks.Keys == old(tasks.Keys)
      ensures forall k :: k in tasks ==>
        tasks[k] == if old(tasks)[k].goal == Some(id) then old(tasks)[k].(goal := None) else old(tasks)[k]
      ensures RelatedTasks(id) == []
      ensures missions == old(missions) && records == old(records)
      ensures nextId == old(nextId)
    {
      NullifyGoalKeepsInvariant(tasks, goals, missions, records, nextId, id);
      tasks := map k | k in tasks ::
        if tasks[k].goal == Some(id) then tasks[k].(goal := None) else tasks[k];
      goals := goals - {id};
      if RelatedTasks(id) != [] {
        var t := RelatedTasks(id)[0];
        RelatedTasksInverse(id, t);
        assert false;
      }
    }

    /** `modelContext.delete(mission)`: every goal linked to it loses the
        link (nullify) and survives with all its other fields. */
    method DeleteMission(id: Id)
      requires Valid() && id in missions
      modifies this
      ensures Valid()
      ensures missions == old(missions) - {id}
      ensures goals.Keys == old(goals.Keys)
      ensures forall k :: k in goals ==>
        goals[k] == if old(goals)[k].mission == Some(id) then old(goals)[k].(mission := None) else old(goals)[k]
      ensures RelatedGoals(id) == []
      ensures tasks == old(tasks) && records == old(records)
      ensures nextId == old(nextId)
    {
      NullifyMissionKeepsInvariant(tasks, goals, missions, records, nextId, id);
      goals := map k | k in goals ::
        if goals[k].mission == Some(id) then goals[k].(mission := None) else goals[k];
      missions := missions - {id};
      if RelatedGoals(id) != [] {
        var g := RelatedGoals(id)[0];
        RelatedGoalsInverse(id, g);
        assert false;
      }
    }

    /** `modelContext.delete(record)`: the owning task survives unchanged and
        no longer has an emotion record (nullify). */
    method DeleteRecord(id: Id)
      requires Valid() && id in records
      modifies this
      ensures Valid()
      ensures records == old(records) - {id}
      ensures old(records)[id].task.Some? ==> EmotionRecordOf(old(records)[id].task.value) == None
      ensures tasks == old(tasks) && goals == old(goals) && missions == old(missions)
      ensures nextId == old(nextId)
    {
      records := records - {id};
    }
  }
}
