/** Views/MissionWizardView.swift: the five-question wizard that drafts a
    personal mission statement, lets it be edited, picks a visual theme, and
    saves the mission. */
module MissionWizardView {
  import opened Common
  import opened LifeMissions
  import opened ModelStore

  /** The number of questions; step `QuestionCount` edits the draft and the
      step after it picks the theme. */
  const QuestionCount: nat := 5

  /** `themes`: the visual themes offered, in display order. */
  const Themes: seq<string> := ["default", "nature", "ocean", "mountain", "minimal"]

  /** What the wizard shows at a step. */
  datatype Stage = Question(index: nat) | EditDraft | ChooseTheme

  /** Steps 0-4 ask a question, step 5 edits the draft, later steps choose
      the theme. */
  function StageOf(step: nat): (s: Stage)
    ensures s.Question? <==> step < QuestionCount
    ensures s.Question? ==> s.index == step
    ensures s == EditDraft <==> step == QuestionCount
    ensures s == ChooseTheme <==> step > QuestionCount
  {
    if step < QuestionCount then Question(step)
    else if step == QuestionCount then EditDraft
    else ChooseTheme
  }

  /** `generateMissionStatement`'s template over the five answers. */
  function MissionTemplate(answers: seq<string>): string
    requires |answers| == 5
  {
    "我的使命是根据以下价值观生活：" + answers[0] + "。\n\n"
    + "我希望被记住为：" + answers[1] + "。\n\n"
    + "对家人、朋友和社会，我承担责任：" + answers[2] + "。\n\n"
    + "我将利用我的天赋和热情：" + answers[3] + "。\n\n"
    + "我的终极目标是：" + answers[4] + "。"
  }

  /** The template opens with the values sentence, ends with a full stop, is
      never empty, and consists of a fixed frame of 72 characters plus the
      five answers, each used once. */
  lemma MissionTemplateShape(answers: seq<string>)
    requires |answers| == 5
    ensures var m := MissionTemplate(answers);
      && |m| == 72 + |answers[0]| + |answers[1]| + |answers[2]| + |answers[3]| + |answers[4]|
      && m[..15] == "我的使命是根据以下价值观生活："
      && m[15..15 + |answers[0]|] == answers[0]
      && m[|m| - 1] == '。'
      && m != ""
  {
  }

  /** The five answers stand in the template in order, each at the offset
      the fixed frame before it leaves. */
  lemma MissionTemplateAnswers(answers: seq<string>)
    requires |answers| == 5
    ensures var m := MissionTemplate(answers);
      var s0 := 15;
      var s1 := s0 + |answers[0]| + 11;
      var s2 := s1 + |answers[1]| + 19;
      var s3 := s2 + |answers[2]| + 15;
      var s4 := s3 + |answers[3]| + 11;
      && |m| == s4 + |answers[4]| + 1
      && m[s0..s0 + |answers[0]|] == answers[0]
      && m[s1..s1 + |answers[1]|] == answers[1]
      && m[s2..s2 + |answers[2]|] == answers[2]
      && m[s3..s3 + |answers[3]|] == answers[3]
      && m[s4..s4 + |answers[4]|] == answers[4]
  {
  }

  /** The draft shown at step 5: the existing mission's content when
      editing one, the template over the answers otherwise. */
  function Draft(existingContent: Option<string>, answers: seq<string>): string
    requires |answers| == 5
  {
    if existingContent.Some? then existingContent.value else MissionTemplate(answers)
  }

  /** `themeDisplayName(for:)`. */
  function ThemeDisplayName(theme: string): string {
    match theme
    case "default" => "默认"
    case "nature" => "自然"
    case "ocean" => "海洋"
    case "mountain" => "山峰"
    case "minimal" => "简约"
    case _ => theme
  }

  /** Each offered theme has a name of its own that differs from its key;
      any other string is shown as it is. */
  lemma ThemeDisplayNameSpec(t: string, u: string)
    ensures t !in Themes ==> ThemeDisplayName(t) == t
    ensures t in Themes ==> ThemeDisplayName(t) != t
    ensures t in Themes && u in Themes ==> (ThemeDisplayName(t) == ThemeDisplayName(u) <==> t == u)
  {
  }

  /** The wizard's state. `existing` is the mission being edited, if any.
      `themeChosen` records whether a theme card was ever tapped. */
  class MissionWizard {
    const existing: Option<Id>
    var currentStep: nat
    var answers: seq<string>
    var finalMissionContent: string
    var selectedTheme: string
    ghost var themeChosen: bool

    /** The steps never go beyond the theme step; every question already
        passed has an answer; the theme step is reached only with a draft;
        the selected theme is an offered one, and "default" until a card is
        tapped. */
    ghost predicate Valid()
      reads this
    {
      && currentStep <= QuestionCount + 1
      && |answers| == QuestionCount
      && (forall i :: 0 <= i < currentStep && i < QuestionCount ==> answers[i] != "")
      && (currentStep == QuestionCount + 1 ==> finalMissionContent != "")
      && selectedTheme in Themes
      && (!themeChosen ==> selectedTheme == DefaultTheme)
    }

    /** `MissionWizardView(existingMission:)`: the first question, five empty
        answers, no draft, and the "default" theme even when editing. */
    constructor (existing: Option<Id>)
      ensures Valid()
      ensures this.existing == existing && currentStep == 0
      ensures answers == ["", "", "", "", ""] && finalMissionContent == ""
      ensures selectedTheme == DefaultTheme && !themeChosen
    {
      this.existing := existing;
      currentStep := 0;
      answers := ["", "", "", "", ""];
      finalMissionContent := "";
      selectedTheme := DefaultTheme;
      themeChosen := false;
    }

    /** Typing the answer to the current question. */
    method EditAnswer(text: string)
      requires Valid() && currentStep < QuestionCount
      modifies this
      ensures Valid()
      ensures answers == old(answers)[old(currentStep) := text]
      ensures currentStep == old(currentStep) && finalMissionContent == old(finalMissionContent)
      ensures selectedTheme == old(selectedTheme) && themeChosen == old(themeChosen)
    {
      answers := answers[currentStep := text];
    }

    /** "上一步": offered on the questions after the first; goes back one. */
    method Back()
      requires Valid() && 0 < currentStep < QuestionCount
      modifies this
      ensures Valid()
      ensures currentStep == old(currentStep) - 1
      ensures answers == old(answers) && finalMissionContent == old(finalMissionContent)
      ensures selectedTheme == old(selectedTheme) && themeChosen == old(themeChosen)
    {
      currentStep := currentStep - 1;
    }

    /** "下一步" / "生成使命宣言": enabled only when the current question is
        answered; moves one step on, and arriving at the draft step
        generates the draft. */
    method Next(store: Store)
      requires Valid() && currentStep < QuestionCount && answers[currentStep] != ""
      requires existing.Some? ==> existing.value in store.missions
      modifies this
      ensures Valid()
      ensures currentStep == old(currentStep) + 1
      ensures answers == old(answers)
      ensures currentStep == QuestionCount ==> (finalMissionContent ==
        Draft(if existing.Some? then Some(store.missions[existing.value].content) else None, answers))
      ensures currentStep < QuestionCount ==> finalMissionContent == old(finalMissionContent)
      ensures selectedTheme == old(selectedTheme) && themeChosen == old(themeChosen)
    {
      currentStep := currentStep + 1;
      if currentStep == QuestionCount {
        if existing.Some? {
          finalMissionContent := store.missions[existing.value].content;
        } else {
          finalMissionContent := MissionTemplate(answers);
        }
      }
    }

    /** Editing the draft at step 5. */
    method EditDraft(text: string)
      requires Valid() && currentStep == QuestionCount
      modifies this
      ensures Valid()
      ensures finalMissionContent == text
      ensures currentStep == old(currentStep) && answers == old(answers)
      ensures selectedTheme == old(selectedTheme) && themeChosen == old(themeChosen)
    {
      finalMissionContent := text;
    }

    /** "继续": enabled only with a non-empty draft; moves to the theme step. */
    method Continue()
      requires Valid() && currentStep == QuestionCount && finalMissionContent != ""
      modifies this
      ensures Valid()
      ensures currentStep == QuestionCount + 1
      ensures answers == old(answers) && finalMissionContent == old(finalMissionContent)
      ensures selectedTheme == old(selectedTheme) && themeChosen == old(themeChosen)
    {
      currentStep := currentStep + 1;
    }

    /** Tapping a theme card. */
    method SelectTheme(theme: string)
      requires Valid() && currentStep == QuestionCount + 1 && theme in Themes
      modifies this
      ensures Valid()
      ensures selectedTheme == theme && themeChosen
      ensures currentStep == old(currentStep) && answers == old(answers)
      ensures finalMissionContent == old(finalMissionContent)
    {
      selectedTheme := theme;
      themeChosen := true;
    }

    /** "完成" (`saveMission`): when editing, the mission's content and theme
        are overwritten in place and nothing is inserted; otherwise exactly
        one new mission is inserted. Either way the saved mission carries the
        non-empty draft and the selected theme, so a save without tapping a
        theme card resets the theme to "default". */
    method Save(store: Store, now: Time) returns (id: Id)
      requires Valid() && currentStep == QuestionCount + 1
      requires store.Valid()
      requires existing.Some? ==> existing.value in store.missions
      modifies store
      ensures store.Valid()
      ensures existing.Some? ==> (id == existing.value
        && store.missions == old(store.missions)[id := old(store.missions)[id].(content := finalMissionContent, visualTheme := selectedTheme)])
      ensures existing.None? ==> (id !in old(store.missions)
        && store.missions == old(store.missions)[id := LifeMission(id, finalMissionContent, now, None, selectedTheme)]
        && store.MissionList() == old(store.MissionList()) + [store.missions[id]])
      ensures store.missions[id].content != ""
      ensures !themeChosen ==> store.missions[id].visualTheme == DefaultTheme
      ensures store.tasks == old(store.tasks) && store.goals == old(store.goals) && store.records == old(store.records)
    {
      if existing.Some? {
        id := existing.value;
        store.missions := store.missions[id := store.missions[id].(content := finalMissionContent, visualTheme := selectedTheme)];
      } else {
        id := store.InsertMission(NewMission(0, finalMissionContent, now, selectedTheme));
      }
    }
  }
}
