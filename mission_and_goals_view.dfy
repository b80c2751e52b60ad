/** Views/MissionAndGoalsView.swift: the "以终为始" screen, with the current
    mission card and the goals grouped by life area. */
module MissionAndGoalsView {
  import opened Common
  import opened Goals
  import opened LifeMissions
  import opened ModelStore
  import opened MissionWizardView

  /** `currentMission`: `missions.first`. */
  function CurrentMission(missions: seq<LifeMission>): Option<LifeMission> {
    if missions == [] then None else Some(missions[0])
  }

  /** The screen shows a mission card exactly when a mission is stored, and
      the card shows the stored mission with the smallest id. The edit
      button in the toolbar is enabled under the same condition. */
  lemma CurrentMissionSpec(store: Store)
    requires store.Valid()
    ensures CurrentMission(store.MissionList()).None? <==> store.missions == map[]
    ensures CurrentMission(store.MissionList()).Some? ==>
      var m := CurrentMission(store.MissionList()).value;
      && m.id in store.missions && store.missions[m.id] == m
      && forall k :: k in store.missions ==> m.id <= k
  {
    var list := store.MissionList();
    if list != [] {
      store.MissionListMember(list[0]);
      InIdOrderKeysIncrease(store.missions, 0, store.nextId, (m: LifeMission) => m.id);
      forall k | k in store.missions
        ensures list[0].id <= k
      {
        store.MissionListMember(store.missions[k]);
        var j :| 0 <= j < |list| && list[j] == store.missions[k];
      }
    } else if store.missions != map[] {
      var k :| k in store.missions;
      store.MissionListMember(store.missions[k]);
    }
  }

  /** The mission card's edit button, the toolbar button (enabled only
      with a mission) and the empty-mission button all open the wizard on
      `currentMission`: it edits the stored mission when there is one and
      creates the first one otherwise, so its save precondition holds. */
  method OpenMissionWizard(store: Store) returns (w: MissionWizard)
    requires store.Valid()
    ensures fresh(w) && w.Valid() && w.currentStep == 0 && !w.themeChosen
    ensures w.existing.None? <==> store.missions == map[]
    ensures w.existing.Some? ==> (w.existing.value in store.missions
      && forall k :: k in store.missions ==> w.existing.value <= k)
  {
    CurrentMissionSpec(store);
    var current := CurrentMission(store.MissionList());
    w := new MissionWizard(if current.Some? then Some(current.value.id) else None);
  }

  /** The position of an area in `LifeArea.allCases`. */
  function AreaRank(a: LifeArea): nat {
    match a
    case Career => 0
    case Family => 1
    case Health => 2
    case Learning => 3
    case Finance => 4
    case Social => 5
    case Spiritual => 6
  }

  /** One area section of the goal list: its header's area and its cards. */
  datatype AreaSection = AreaSection(area: LifeArea, goals: seq<Goal>)

  /** The sections for `areas`, in that order: the goals of each area, in
      list order, and no section for an area without goals. */
  function SectionsFrom(areas: seq<LifeArea>, goals: seq<Goal>): (r: seq<AreaSection>)
    ensures forall i :: 0 <= i < |r| ==> r[i].area in areas && r[i].goals != []
  {
    if areas == [] then []
    else
      var here := Filter(goals, (g: Goal) => g.area == areas[0]);
      (if here == [] then [] else [AreaSection(areas[0], here)]) + SectionsFrom(areas[1..], goals)
  }

  /** `ForEach(LifeArea.allCases) { area in goals.filter { $0.area == area } }`
      with the empty sections skipped. */
  function AreaSections(goals: seq<Goal>): seq<AreaSection> {
    SectionsFrom(AllAreas, goals)
  }

  /** All the cards of a list of sections, top to bottom. */
  function Cards(sections: seq<AreaSection>): seq<Goal> {
    if sections == [] then [] else sections[0].goals + Cards(sections[1..])
  }

  /** Each section holds exactly the goals of its own area, in list order. */
  lemma {:induction false} SectionsHoldTheirArea(areas: seq<LifeArea>, goals: seq<Goal>)
    ensures forall i :: 0 <= i < |SectionsFrom(areas, goals)| ==>
      SectionsFrom(areas, goals)[i].goals == Filter(goals, (g: Goal) => g.area == SectionsFrom(areas, goals)[i].area)
  {
    if areas != [] {
      SectionsHoldTheirArea(areas[1..], goals);
    }
  }

  /** The areas of `areas` strictly increase in declaration order. */
  predicate RankOrdered(areas: seq<LifeArea>) {
    forall i, j :: 0 <= i < j < |areas| ==> AreaRank(areas[i]) < AreaRank(areas[j])
  }

  /** The section headers strictly increase in declaration order. */
  predicate SectionsRanked(sections: seq<AreaSection>) {
    forall i, j :: 0 <= i < j < |sections| ==> AreaRank(sections[i].area) < AreaRank(sections[j].area)
  }

  /** `LifeArea.allCases` is in declaration order. */
  lemma AllAreasRankOrdered()
    ensures RankOrdered(AllAreas)
  {
    forall i | 0 <= i < |AllAreas|
      ensures AreaRank(AllAreas[i]) == i
    {
    }
  }

  /** Dropping the first area of a rank-ordered list leaves a rank-ordered
      list whose areas all rank above the dropped one. */
  lemma RankOrderedTail(areas: seq<LifeArea>)
    requires RankOrdered(areas) && areas != []
    ensures RankOrdered(areas[1..])
    ensures forall a :: a in areas[1..] ==> AreaRank(areas[0]) < AreaRank(a)
  {
    var tail := areas[1..];
    forall i, j | 0 <= i < j < |tail|
      ensures AreaRank(tail[i]) < AreaRank(tail[j])
    {
      assert tail[i] == areas[i + 1] && tail[j] == areas[j + 1];
    }
    forall a | a in tail
      ensures AreaRank(areas[0]) < AreaRank(a)
    {
      var k :| 0 <= k < |tail| && tail[k] == a;
      assert areas[k + 1] == a;
    }
  }

  /** A section ranked below every section of a ranked list can head it. */
  lemma SectionsRankedCons(s: AreaSection, rest: seq<AreaSection>)
    requires SectionsRanked(rest)
    requires forall j :: 0 <= j < |rest| ==> AreaRank(s.area) < AreaRank(rest[j].area)
    ensures SectionsRanked([s] + rest)
  {
    var r := [s] + rest;
    forall i, j | 0 <= i < j < |r|
      ensures AreaRank(r[i].area) < AreaRank(r[j].area)
    {
      assert r[j] == rest[j - 1];
      if i > 0 {
        assert r[i] == rest[i - 1];
      }
    }
  }

  /** Sections follow the order of `areas` when that order is by rank. */
  lemma {:induction false} SectionsInRankOrder(areas: seq<LifeArea>, goals: seq<Goal>)
    requires RankOrdered(areas)
    ensures SectionsRanked(SectionsFrom(areas, goals))
  {
    if areas != [] {
      RankOrderedTail(areas);
      SectionsInRankOrder(areas[1..], goals);
      var here := Filter(goals, (g: Goal) => g.area == areas[0]);
      if here != [] {
        SectionsRankedCons(AreaSection(areas[0], here), SectionsFrom(areas[1..], goals));
      }
    }
  }

  /** No area occurs twice in `areas`. */
  predicate DistinctAreas(areas: seq<LifeArea>) {
    forall i, j :: 0 <= i < j < |areas| ==> areas[i] != areas[j]
  }

  /** The cards of the sections are the goals whose area is among `areas`,
      each exactly as often as in the list, when no area repeats. */
  lemma {:induction false} SectionsPartitionFrom(areas: seq<LifeArea>, goals: seq<Goal>)
    requires DistinctAreas(areas)
    ensures multiset(Cards(SectionsFrom(areas, goals))) == multiset(Filter(goals, (g: Goal) => g.area in areas))
  {
    if areas == [] {
      FilterCount(goals, (g: Goal) => g.area in areas);
      assert |Filter(goals, (g: Goal) => g.area in areas)| == 0;
    } else {
      var a := areas[0];
      var tail := areas[1..];
      assert DistinctAreas(tail) by {
        forall i, j | 0 <= i < j < |tail|
          ensures tail[i] != tail[j]
        {
          assert tail[i] == areas[i + 1] && tail[j] == areas[j + 1];
        }
      }
      SectionsPartitionFrom(tail, goals);
      forall k | 0 <= k < |tail|
        ensures tail[k] != a
      {
        assert tail[k] == areas[k + 1];
      }
      forall x: Goal
        ensures (x.area in areas) == (x.area == a || x.area in tail)
        ensures !(x.area == a && x.area in tail)
      {
        assert areas == [a] + tail;
      }
      FilterUnion(goals, (g: Goal) => g.area == a, (g: Goal) => g.area in tail, (g: Goal) => g.area in areas);
      var here := Filter(goals, (g: Goal) => g.area == a);
      var r := SectionsFrom(areas, goals);
      if here == [] {
        assert r == SectionsFrom(tail, goals);
      } else {
        assert r == [AreaSection(a, here)] + SectionsFrom(tail, goals);
        assert r[1..] == SectionsFrom(tail, goals);
        assert Cards(r) == here + Cards(SectionsFrom(tail, goals));
      }
    }
  }

  /** The grouped list shows every goal exactly as often as the query
      returns it, and there are no sections exactly when there are no goals
      (the screen then shows its empty-goals placeholder instead). */
  lemma AreaSectionsPartition(goals: seq<Goal>)
    ensures multiset(Cards(AreaSections(goals))) == multiset(goals)
    ensures AreaSections(goals) == [] <==> goals == []
  {
    var r := AreaSections(goals);
    AllAreasComplete(Career, Career);
    SectionsPartitionFrom(AllAreas, goals);
    forall h: Goal
      ensures h.area in AllAreas
    {
      AllAreasComplete(h.area, h.area);
    }
    FilterAll(goals, (h: Goal) => h.area in AllAreas);
    if r != [] {
      assert Cards(r) == r[0].goals + Cards(r[1..]);
      assert r[0].goals[0] in multiset(goals);
    }
  }

  /** A goal sits in a section exactly when the section's header is the
      goal's own area, and every listed goal has such a section. */
  lemma AreaSectionsMember(goals: seq<Goal>, g: Goal)
    ensures forall i :: 0 <= i < |AreaSections(goals)| ==>
      (g in AreaSections(goals)[i].goals <==> g in goals && g.area == AreaSections(goals)[i].area)
    ensures g in goals ==> exists i :: 0 <= i < |AreaSections(goals)| && AreaSections(goals)[i].area == g.area
  {
    var r := AreaSections(goals);
    SectionsHoldTheirArea(AllAreas, goals);
    forall i | 0 <= i < |r|
      ensures g in r[i].goals <==> g in goals && g.area == r[i].area
    {
      FilterMember(goals, (h: Goal) => h.area == r[i].area, g);
    }
    if g in goals {
      AreaSectionsPartition(goals);
      assert g in multiset(Cards(r));
      CardsMember(r, g);
    }
  }

  /** Sections are never empty and follow the declaration order of the
      areas, so no area has two sections. */
  lemma AreaSectionsOrder(goals: seq<Goal>)
    ensures forall i :: 0 <= i < |AreaSections(goals)| ==> AreaSections(goals)[i].goals != []
    ensures SectionsRanked(AreaSections(goals))
  {
    AllAreasRankOrdered();
    SectionsInRankOrder(AllAreas, goals);
  }

  /** A card comes from some section. */
  lemma {:induction false} CardsMember(sections: seq<AreaSection>, g: Goal)
    requires g in Cards(sections)
    ensures exists i :: 0 <= i < |sections| && g in sections[i].goals
  {
    if g !in sections[0].goals {
      CardsMember(sections[1..], g);
      var i :| 0 <= i < |sections[1..]| && g in sections[1..][i].goals;
      assert g in sections[i + 1].goals;
    }
  }
}
