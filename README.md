# 7_todo in Dafny

A model of the data core of *7_todo*, a SwiftUI/SwiftData to-do app organised
around "The 7 Habits of Highly Effective People". The app has four entities:

- **Tasks**, placed in an Eisenhower quadrant by their importance and urgency
  scores, in a circle of influence or a circle of concern.
- **Goals**, each in a life area, with key results.
- **A personal mission statement** (`LifeMission`).
- **Emotion records**, written when a task is completed.

What the model covers:

- The entities and their relationships with the declared delete rules.
- The commands the screens issue against the store: create, edit, complete,
  delete, drag a task to another quadrant, and save a mission.
- The pure selectors and formatters the screens display: quadrant columns,
  influence/concern sections, goals grouped by area, progress counts, labels,
  the passive-phrase title rewriting, and the mission wizard's step machine and
  draft template.

How the modules are laid out:

- `Common` holds the option type, the order-preserving `Filter` of
  `Array.filter` with its lemmas, and the listing of a map in id order.
- `Tasks`, `Goals`, `EmotionRecords` and `LifeMissions` hold the entities as
  value datatypes, one module per model file.
- `ModelStore` holds the SwiftData model context as a `Store` class. It has
  one map per entity kind and one authoritative foreign key per relationship
  edge: `Task.goal`, `Goal.mission` and `EmotionRecord.task`. The reverse
  collections (`relatedTasks`, `relatedGoals`, `emotionRecord`) are queries
  over those keys. The delete methods apply the declared rules:
  - cascade from a task to its emotion record;
  - nullify everywhere else.
- One module per screen follows. A screen's `@State` that its buttons change
  step by step is a class whose methods are those buttons. Save commands are
  methods on the store.

## Model

| member | source | states |
|---|---|---|
| Tasks.RawValue | Models/Task.swift:51-55 | each quadrant's raw value lies in 1..4 and is its position in the case list, so raw values tell quadrants apart |
| Tasks.QuadrantLabelsDistinct | Models/Task.swift:51-64 | two quadrants have the same raw value, or the same name, exactly when they are the same quadrant |
| Tasks.QuadrantCharacterization | Models/Task.swift:18-28 | a quadrant is important iff importance >= 3 and urgent iff urgency >= 3; each of the four quadrants is reached exactly by its pair of threshold conditions, so every score pair has exactly one quadrant |
| Tasks.QuadrantMonotonic | Models/Task.swift:19-27 | raising the scores never leaves the important (urgent) half, and importance alone decides importance, urgency alone decides urgency |
| Tasks.QuadrantOnlyFromScores | Models/Task.swift:18-28 | two tasks with equal importance and urgency have the same quadrant, whatever their other fields |
| Tasks.NewTaskDefaults | Models/Task.swift:37-48 | a new task is incomplete, proactive, scored 3/3, has an empty description, no due date and no goal, and so lies in the important-and-urgent quadrant |
| Goals.AllAreasComplete | Models/Goal.swift:37-57 | there are exactly seven life areas, listed once each, each with a non-empty icon; labels and icons tell areas apart |
| Goals.AllTimeframesComplete | Models/Goal.swift:59-63 | there are exactly three timeframes, listed once each, with distinct labels |
| Goals.NewGoalDefaults | Models/Goal.swift:23-34 | a new goal is incomplete, has no key results, no target date, an empty description and no mission, and is created now |
| EmotionRecords.EmotionTypesComplete | Models/EmotionRecord.swift:24-31 | `allCases` lists exactly seven emotions, each once |
| EmotionRecords.EmotionLabelsDistinct | Models/EmotionRecord.swift:24-43 | no two emotions share a label or an icon |
| EmotionRecords.EmotionPolarity | Models/EmotionRecord.swift:45-52 | exactly happy, satisfied, calm and motivated are positive, four of the seven, in declaration order |
| EmotionRecords.NewEmotionRecordDefaults | Models/EmotionRecord.swift:15-21 | a new record has no note, is recorded now, and carries the emotion and the task it was created with |
| LifeMissions.NewMissionDefaults | Models/LifeMission.swift:16-22 | a new mission has the theme "default", no review date, the given content, and is created now |
| ModelStore.CompletionKeepsRecordsOwned | Models/Task.swift:34-35 | completing a task and linking a fresh record to it, after unlinking any older record, keeps every task with at most one record and only completed tasks with one |
| ModelStore.CompletionKeepsInvariant | Models/Task.swift:34-35 | completing a task and inserting a fresh record under the next id keeps ids matching keys, links live and records owned |
| ModelStore.NullifyGoalKeepsInvariant | Models/Goal.swift:20-21 | unlinking the tasks of a goal and removing it leaves no link naming a missing goal |
| ModelStore.NullifyMissionKeepsInvariant | Models/LifeMission.swift:13-14 | unlinking the goals of a mission and removing it leaves no link naming a missing mission |
| ModelStore.Store.TaskListMember | Views/ProactiveTasksView.swift:5 | the task query lists exactly the stored tasks |
| ModelStore.Store.TaskListIdsIncrease | Views/ProactiveTasksView.swift:5 | the task query lists each task once, in store order |
| ModelStore.Store.GoalListMember | Views/MissionAndGoalsView.swift:7 | the goal query lists exactly the stored goals |
| ModelStore.Store.MissionListMember | Views/MissionAndGoalsView.swift:6 | the mission query lists exactly the stored missions |
| ModelStore.Store.RelatedTasksInverse | Models/Goal.swift:20-21 | a task is among a goal's related tasks iff it is stored and its goal link names that goal |
| ModelStore.Store.RelatedGoalsInverse | Models/LifeMission.swift:13-14 | a goal is among a mission's related goals iff it is stored and its mission link names that mission |
| ModelStore.Store.EmotionRecordInverse | Models/EmotionRecord.swift:12-13 | a task's emotion record is r iff r is stored and linked to that task, and only a stored, completed task has one |
| ModelStore.Store.LookupGoalSpec | Views/NewTaskView.swift:200-202 | the goal lookup yields the selected id exactly when it names a stored goal, and no goal otherwise |
| ModelStore.Store.InsertTask | Views/NewTaskView.swift:204 | inserting a task gives it a fresh id, adds exactly it, appends it to the task list, and changes nothing else |
| ModelStore.Store.InsertGoal | Views/NewGoalView.swift:106 | inserting a goal gives it a fresh id, adds exactly it, appends it to the goal list, and changes nothing else |
| ModelStore.Store.InsertMission | Views/MissionWizardView.swift:300-301 | inserting a mission gives it a fresh id, adds exactly it, appends it to the mission list, and changes nothing else |
| ModelStore.Store.CompleteTask | Views/ProactiveTasksView.swift:54-58 | completion sets the flag and `modifiedAt` of that task only, inserts exactly one record with the chosen emotion and note linked to it, unlinks any older record of that task, and the task's emotion record becomes the new one |
| ModelStore.Store.DeleteTask | Models/Task.swift:31-35 | deleting a task removes exactly it and the records it owns (cascade); goals survive and only lose it from their related tasks (nullify); the task list keeps its order |
| ModelStore.Store.DeleteGoal | Models/Goal.swift:17-21 | deleting a goal removes it, keeps every task and clears the goal link of exactly the tasks that pointed to it; missions, records and the id counter are untouched |
| ModelStore.Store.DeleteMission | Models/LifeMission.swift:13-14 | deleting a mission removes it, keeps every goal and clears the mission link of exactly the goals that pointed to it; tasks, records and the id counter are untouched |
| ModelStore.Store.DeleteRecord | Models/EmotionRecord.swift:12-13 | deleting a record removes only it; its task survives and has no emotion record afterwards; the other maps and the id counter are untouched |
| TaskQuadrantView.QuadrantColumnMember | Views/TaskQuadrantView.swift:105-106 | a task is in column q iff it is listed, incomplete and in quadrant q |
| TaskQuadrantView.QuadrantColumnsPartition | Views/TaskQuadrantView.swift:5 | the four columns together hold every incomplete task exactly as often as it is listed |
| TaskQuadrantView.QuadrantColumnsCount | Views/TaskQuadrantView.swift:5 | the sizes of the four columns add up to the number of incomplete tasks |
| TaskQuadrantView.RetargetedLandsInQuadrant | Views/TaskQuadrantView.swift:179-197 | after retargeting to q the task's quadrant is q, both scores are 2 or 4, and nothing but the scores and `modifiedAt` changed |
| TaskQuadrantView.RetargetIdempotent | Views/TaskQuadrantView.swift:181-194 | retargeting twice to the same quadrant is retargeting once, apart from the timestamp; and a task whose scores came from a retarget is retargeted onto the same scores by its own quadrant (a task scored otherwise, say 5/5, gets the fixed scores of its quadrant) |
| TaskQuadrantView.UpdateTaskQuadrant | Views/TaskQuadrantView.swift:179-197 | only the dragged task changes, to its retargeted form, and lands in the target quadrant |
| TaskQuadrantView.QuadrantBoard.constructor | Views/TaskQuadrantView.swift:11-12 | no drag is in progress when the board opens |
| TaskQuadrantView.QuadrantBoard.StartDrag | Views/TaskQuadrantView.swift:148-151 | a drag records the task and the column it came from |
| TaskQuadrantView.QuadrantBoard.Drop | Views/TaskQuadrantView.swift:161-176 | a drop is accepted iff a drag is in progress from another column; a refused drop changes nothing; an accepted one retargets exactly the dragged task and clears the drag state |
| TaskEditor.NewTaskDraftDefaults | Views/NewTaskView.swift:9-21 | the new-task form is proactive, scored 3/3, due tomorrow, keeps the preselected goal, previews quadrant I, and cannot be saved without a title |
| TaskEditor.LabelsCoverScale | Views/NewTaskView.swift:124-144 | each slider value 1..5 has its own non-empty label and every other value has the empty label |
| TaskEditor.QuadrantTextAgrees | Views/NewTaskView.swift:146-156 | the form's quadrant preview is always the name of the quadrant the saved task will have |
| NewTaskView.ReplaceAllAbsent | Views/NewTaskView.swift:182-183 | replacing a pattern a title does not contain leaves the title unchanged |
| NewTaskView.ReplaceAllRemoves | Views/NewTaskView.swift:183 | when pattern and replacement cannot recombine, no occurrence of the pattern is left after replacing all of them |
| NewTaskView.PassiveTableSafe | Views/NewTaskView.swift:172-179 | every rule of the passive-phrase table is such a non-recombining pair |
| NewTaskView.SameRules | Views/NewTaskView.swift:172-181 | any iteration order of the dictionary holds exactly its rules, all of them non-recombining |
| NewTaskView.SameRulesSameVerdict | Views/NewTaskView.swift:172-181 | whether a title has a passive phrase, and which rewrites are active rewrites of it, does not depend on the iteration order |
| NewTaskView.AnalyzeTaskTitle | Views/NewTaskView.swift:170-188 | for any iteration order of the rules: no suggestion iff the title contains no passive phrase; otherwise the suggestion replaces every occurrence of the first contained phrase in that order, and only that one, by its active form, and that phrase is gone |
| NewTaskView.SaveNewTask | Views/NewTaskView.swift:190-206 | exactly one new incomplete task with the form's values is inserted and appended; it links the selected goal iff that id names a stored goal |
| NewTaskView.NewTaskSheet.constructor | Views/NewTaskView.swift:9-21 | the sheet opens on the default form with no alert |
| NewTaskView.NewTaskSheet.EditTitle | Views/NewTaskView.swift:28-29 | for a title that differs from the current one and any iteration order of the dictionary: a title without passive phrases leaves the alert and the proposal as they were; a title with one raises the alert with an active rewrite of it |
| NewTaskView.NewTaskSheet.AdoptSuggestion | Views/NewTaskView.swift:114-116 | adopting puts the proposed title in the form; if that leaves the title as it was, or the proposal has no passive phrase, the alert closes; if it changes the title and the proposal still has a passive phrase, the alert is raised again with an active rewrite of the proposal |
| NewTaskView.NewTaskSheet.KeepOriginal | Views/NewTaskView.swift:117 | keeping the original closes the alert and changes nothing else |
| EditTaskView.EditKeepsIdentity | Views/EditTaskView.swift:155-169 | an edit keeps the id, completion flag and creation time, always leaves a due date, and the quadrant follows the form's scores |
| EditTaskView.UntouchedEditRoundTrip | Views/EditTaskView.swift:18-27 | opening the editor and saving untouched gives the task back, with the default due date (one day after opening) when it had none and the save time as `modifiedAt` |
| EditTaskView.EditIdempotent | Views/EditTaskView.swift:155-169 | saving the same form twice equals saving it once, apart from the time |
| EditTaskView.SaveTaskEdits | Views/EditTaskView.swift:155-172 | only that task changes; the goal link becomes the selected goal if stored, no goal otherwise |
| GoalEditor.TypedKeyResultsSpec | Views/NewGoalView.swift:91 | the saved key results are exactly the non-empty fields, in order and with their multiplicities; a savable form keeps all of its fields |
| GoalEditor.DraftsStartWithAField | Views/NewGoalView.swift:10-15 | new and edit forms show at least one key-result field; a new form, and the form of a goal without key results, cannot be saved as opened |
| GoalEditor.GoalForm.New | Views/NewGoalView.swift:10-15 | the new-goal form is a career, medium-term goal due in thirty days with one empty key-result field |
| GoalEditor.GoalForm.FromGoal | Views/EditGoalView.swift:15-23 | the edit form copies the goal, with thirty days from now as target date and one empty field when the goal has none |
| GoalEditor.GoalForm.AddKeyResult | Views/NewGoalView.swift:49-51 | adding appends exactly one empty field, which blocks saving until typed in |
| GoalEditor.GoalForm.RemoveKeyResult | Views/NewGoalView.swift:59-62 | removing, offered only with more than one field, drops exactly that field, keeps the others in order, and never empties the list |
| NewGoalView.SaveNewGoal | Views/NewGoalView.swift:90-108 | exactly one new incomplete goal with the form's values and non-empty key results is inserted and appended, linked to the mission iff one was supplied |
| EditGoalView.EditKeepsGoalIdentity | Views/EditGoalView.swift:98-106 | an edit keeps id, creation time, completion flag and mission, and leaves a target date and only non-empty key results |
| EditGoalView.UntouchedGoalEditRoundTrip | Views/EditGoalView.swift:15-23 | opening the editor on a goal with typed-in key results and saving untouched gives the goal back, with the default target date when it had none |
| EditGoalView.SaveGoalEdits | Views/EditGoalView.swift:98-109 | only that goal changes, in exactly its six editable fields |
| GoalCard.ProgressSpec | Views/GoalCard.swift:45-47 | progress is shown iff the task list is non-empty; completed <= total; completed == total iff all tasks are done; completed == 0 iff none is |
| GoalCard.ProgressAfterCompletion | Views/GoalCard.swift:45-56 | completing one incomplete related task raises the completed count by one and keeps the total |
| GoalCard.CompletionRaisesGoalProgress | Views/GoalCard.swift:45-56 | over the task maps before and after completing an incomplete task of goal g, with the id bound raised by one, g's related tasks keep their total and gain exactly one completed task |
| GoalDetailView.KeyResultLinesSpec | Views/GoalDetailView.swift:58-69 | the key results are listed once each, in stored order, numbered 1..n |
| GoalDetailView.BadgeSpec | Views/GoalDetailView.swift:119-129 | a task shows the checkmark iff it is completed; two incomplete tasks show the same label iff they are in the same quadrant |
| GoalDetailView.AddTaskToGoal | Views/GoalDetailView.swift:155-157 | saving the sheet opened on a goal inserts one task with the form's values; it joins the end of that goal's related tasks if the picker is left on the goal, and the goal's related tasks are unchanged otherwise |
| ProactiveTasksView.SectionMember | Views/ProactiveTasksView.swift:15-27 | a task is in the influence (concern) section iff it is listed, incomplete and (not) proactive |
| ProactiveTasksView.SectionsPartition | Views/ProactiveTasksView.swift:15-27 | the two sections together hold every incomplete task exactly as often as it is listed |
| ProactiveTasksView.RowPicked | Views/ProactiveTasksView.swift:70-71 | the row at position i is picked for deletion iff i is one of the offsets |
| ProactiveTasksView.DeleteTasks | Views/ProactiveTasksView.swift:72-74 | deleting the picked tasks one after another removes exactly them from the task list, in order, together with the records they own; goals, missions and the id counter are untouched |
| ProactiveTasksView.DeleteSectionRows | Views/ProactiveTasksView.swift:70-82 | a row of the section leaves the task list iff its position is one of the offsets; no other task leaves, and exactly the records of the removed tasks go |
| ProactiveTasksView.ProactiveScreen.constructor | Views/ProactiveTasksView.swift:8-9 | no task is selected and the emotion selector is closed |
| ProactiveTasksView.ProactiveScreen.TickRow | Views/ProactiveTasksView.swift:16-19 | ticking a row selects its task and opens the emotion selector |
| ProactiveTasksView.ProactiveScreen.Complete | Views/ProactiveTasksView.swift:51-61 | the selected task, incomplete as every row of a section is, is completed; the record map gains exactly one new record of the chosen emotion and note, linked to it, and keeps every older record; the task leaves both sections, and the selection is cleared |
| ProactiveTasksView.ProactiveScreen.Skip | Views/EmotionSelectorView.swift:72-75 | skipping closes the selector without touching the store |
| TaskDetailView.DotsSpec | Views/TaskDetailView.swift:82-85 | five dots are drawn and the filled ones number the score, clamped to 0..5 |
| TaskDetailView.RecommendationsDistinct | Views/TaskDetailView.swift:270-280 | every quadrant has non-empty advice, and different quadrants have different advice |
| TaskDetailView.PanelsSpec | Views/TaskDetailView.swift:186-250 | the advice panel and the complete button appear iff the task is incomplete, and the advice is the one for the task's quadrant |
| TaskDetailView.TaskDetailScreen.constructor | Views/TaskDetailView.swift:9 | the emotion selector starts closed |
| TaskDetailView.TaskDetailScreen.MarkComplete | Views/TaskDetailView.swift:229-233 | "mark complete", offered only for incomplete tasks, opens the emotion selector |
| TaskDetailView.TaskDetailScreen.Complete | Views/TaskDetailView.swift:256-265 | completion sets the flag and time of that task only and adds exactly one record linked to it, changing no other record; the button then disappears |
| EmotionSelectorView.NoteToSave | Views/EmotionSelectorView.swift:55 | the note is passed on as none iff it is empty, and unchanged otherwise |
| EmotionSelectorView.NoteRoundTrip | Views/EmotionSelectorView.swift:47-55 | normalising loses no typed note, and shows a stored non-empty note back as itself |
| EmotionSelectorView.EmotionSelector.constructor | Views/EmotionSelectorView.swift:7-8 | the selection starts at "satisfied" with an empty note |
| EmotionSelectorView.EmotionSelector.Tap | Views/EmotionSelectorView.swift:40-42 | tapping makes that emotion the selection and keeps the note |
| EmotionSelectorView.EmotionSelector.EditNote | Views/EmotionSelectorView.swift:47 | typing replaces the note and keeps the selection |
| EmotionSelectorView.EmotionSelector.Save | Views/EmotionSelectorView.swift:54-56 | saving hands on the selected emotion and the normalised note |
| MissionWizardView.StageOf | Views/MissionWizardView.swift:28-37 | steps 0-4 are questions, step 5 edits the draft, every later step chooses the theme |
| MissionWizardView.MissionTemplateShape | Views/MissionWizardView.swift:246-253 | the template is a fixed 72-character frame plus the five answers, opens with the values sentence and the first answer, and ends with a full stop |
| MissionWizardView.MissionTemplateAnswers | Views/MissionWizardView.swift:248-252 | the five answers appear in the template in order, each at the offset left by the fixed text before it, and the template ends one character after the last answer |
| MissionWizardView.ThemeDisplayNameSpec | Views/MissionWizardView.swift:282-291 | the five offered themes have distinct display names that differ from their keys; any other string is shown unchanged |
| MissionWizardView.MissionWizard.constructor | Views/MissionWizardView.swift:8-13 | the wizard opens at the first question with five empty answers, no draft and the "default" theme, even when editing |
| MissionWizardView.MissionWizard.EditAnswer | Views/MissionWizardView.swift:76 | typing changes only the current question's answer |
| MissionWizardView.MissionWizard.Back | Views/MissionWizardView.swift:104-108 | "back", offered on questions after the first, goes back exactly one step |
| MissionWizardView.MissionWizard.Next | Views/MissionWizardView.swift:121-138 | "next", enabled only with an answer, goes one step on; arriving at step 5 sets the draft to the existing mission's content when editing, else to the template of the answers |
| MissionWizardView.MissionWizard.EditDraft | Views/MissionWizardView.swift:152 | editing at step 5 replaces the draft only |
| MissionWizardView.MissionWizard.Continue | Views/MissionWizardView.swift:160-173 | "continue", enabled only with a non-empty draft, moves to the theme step |
| MissionWizardView.MissionWizard.SelectTheme | Views/MissionWizardView.swift:207-209 | tapping a theme card selects that theme |
| MissionWizardView.MissionWizard.Save | Views/MissionWizardView.swift:293-302 | when editing, the mission's content and theme are overwritten in place and nothing is inserted; otherwise exactly one mission is inserted; the saved content is non-empty, and an untouched theme saves as "default" |
| MissionAndGoalsView.CurrentMissionSpec | Views/MissionAndGoalsView.swift:14-16 | there is a current mission iff a mission is stored, and it is the stored mission first in store order |
| MissionAndGoalsView.OpenMissionWizard | Views/MissionAndGoalsView.swift:89-100 | the wizard opens on the current mission: it edits it when one exists (the only case the toolbar button is enabled) and creates one otherwise |
| MissionAndGoalsView.SectionsHoldTheirArea | Views/MissionAndGoalsView.swift:54-55 | each area section holds exactly the goals of its area, in list order |
| MissionAndGoalsView.AreaSectionsPartition | Views/MissionAndGoalsView.swift:49-56 | the sections together show every goal exactly as often as it is listed, and there are no sections iff there are no goals |
| MissionAndGoalsView.AreaSectionsMember | Views/MissionAndGoalsView.swift:54-55 | a goal is in a section iff the section's area is its own, and every listed goal has such a section |
| MissionAndGoalsView.AreaSectionsOrder | Views/MissionAndGoalsView.swift:54-56 | no section is empty, and sections follow the declaration order of the areas, so no area has two |

## Left out

- Layout, colours, fonts, icons beyond their names, sheets and navigation are presentation with no behaviour to state. This includes `themeColor`/`themeTextColor`, the wizard's navigation titles, the question texts and the `getAIFeedback` prompt texts.
- Wall-clock time: `Date()` is a `now` parameter (an integer count of seconds), and the +1 day and +30 days defaults are `now + 86400` and `now + 86400 * 30`.
- Floating point: slider values are integers, and the percentage `Int(progress * 100)` of Views/GoalCard.swift:47-51 is not modelled. Progress is the (completed, total) pair it is computed from.
- Slider ranges: the 1...5 slider bounds are not enforced on scores, so every statement about quadrants and labels holds for all integers.
- SwiftData persistence, autosave and `ModelContainer` setup: the store is in memory.
- `@Query` order: SwiftData does not specify it. The model lists entities in ascending id order, which is insertion order, so "the first mission" is the one created first.
- `UUID()` is a store counter that hands out fresh ids.
- Swift `Dictionary` iteration order in `analyzeTaskTitle` is unspecified: it is a parameter, any permutation of the phrase table.
- `String.contains`/`replacingOccurrences` work on `Character`s (grapheme clusters), while `NewTaskView.Contains` and `NewTaskView.AnalyzeTaskTitle` work on code points. The two agree unless a phrase in the title is immediately followed by a combining mark or another grapheme extender (a variation selector, a zero-width joiner): Swift then finds no match and the model does.
- Text fields bound to the form's state are modelled as direct assignments (`EditTitle`, `EditAnswer`, `EditDraft`, `EditNote`).
- Views/SettingsView.swift, Views/ContentView.swift, EffectiveHabitsApp.swift and __todoApp.swift hold no logic (stubs and tab wiring) and are not part of this model.
- Drag payloads (`NSItemProvider` with the task's UUID string) are left out; the drop is decided by the drag state alone.
- The mission card's "review" button is an empty action that never sets `lastReviewedAt`, so nothing changes it.
- Cancel buttons and `dismiss()` change no data and are left out.
- GoalCard.ProgressSpec: says nothing about the displayed percentage (see floating point above).
