# SkillSage in Dafny

SkillSage is a single-page learning-plan app. A learner names a skill and picks
a framework in a wizard. A short assessment chat gauges their level. A
generation endpoint then writes a four-week curriculum of modules and tasks.
The plan dashboard lets the learner tick tasks off (progress is recomputed),
keep a journal, take a quiz on the current module and ask a tutor. Plans live in
an ordered collection written through to browser storage.

This project models that core and proves properties of it:

| file | module | models |
|---|---|---|
| `plan_model.dfy` | `PlanModel` | the plan, module, task and journal shapes; the task counts and the rounded progress percentage; flipping one task |
| `storage.dfy` | `Storage` | `StorageService`: upsert by id, delete by id, the write-through to storage (a ghost snapshot), and the sign-in flags |
| `schemas.dfy` | `Schemas` | the response schemas as data (every property optional, as none lists `required`), conformance, and encoders/decoders showing the typed values are exactly the conforming replies that fill every property |
| `gateway.dfy` | `Gateway` | `AiService`: the prompts, the assessment request parts, and what each operation does with an empty reply, an unparsable one or a failed call |
| `conversation.dfy` | `Conversation` | the message shape shared by the three chat panels |
| `assessment.dfy` | `Assessment` | `AssessmentComponent`: the guarded send, the pending image, the busy flag, voice input, and the summary handed to generation |
| `dashboard.dfy` | `Dashboard` | `DashboardComponent`: toggling a task (nested counting loop, progress, save), the journal, the quiz and the tutor chat |
| `home.dfy` | `Home` | `HomeComponent`: the coach chat, the suggestions refresh, and the confirmed delete |
| `app.dfy` | `App` | `AppComponent`: the five-screen state machine, the wizard draft and plan generation |
| `text.dfy`, `wrappers.dfy` | `Text`, `Wrappers` | `trim`, `join`, `indexOf`/`split`, `JSON.stringify` string quoting; `Option`/`Result` |

Plans are objects: the dashboard edits the very object the store lists and then
saves it. So `Plan` is a class. Its id, skill, config and creation time are
constants, and its modules, progress and journal are fields. The value written to
storage (`PlanRecord`) is read off those objects when they are written.

The generation endpoint, the chat endpoint, the file reader, speech recognition,
`confirm` and the clock are not modelled. What they produce comes in as
parameters:
- a `JsonReply` is parsed items, no text, unparsable text, or a failed call;
- a `TextReply` is an answer or a failed call;
- the other inputs are the picked image's data URL, the recognised transcript,
  the confirmation, and the ids, dates and timestamps.

Each asynchronous handler whose intermediate state is visible on screen is split
at its `await`:
- `SendMessage` / `ReceiveReply`;
- `SendCoachQuestion` / `ReceiveCoachReply`;
- `SendSageQuestion` / `ReceiveSageReply`;
- `StartQuiz` / `ReceiveQuiz`;
- `RefreshSuggestions` / `ReceiveSuggestions`;
- `BeginGeneratePlan` / `FinishGeneratePlan`.

The first half returns what is sent to the endpoint.

Behaviours of the code that the model keeps as written:
- The wizard's only check is the Next button's `disabled` binding `!skill`. A
  skill of spaces passes (`App.NextAcceptsBlankSkill`), and `goToAssessment`
  itself checks nothing.
- The dashboard's back button keeps the plan last shown (`App.App.GoHome`).
- Replies are not validated against the schemas. `JSON.parse` output is used as it
  is. None of the schemas lists `required` properties, so a conforming reply may
  leave any property out. The model types the parsed items as complete values:
  `Schemas` shows they correspond exactly to the conforming replies that fill every
  property, and that a reply leaving one out conforms but has no typed reading
  (`Schemas.PartialPlanConforms`, `Schemas.PartialQuizConforms`).
- Prompts interpolate caller text without escaping. Only the plan's
  configuration goes through `JSON.stringify`.
- `assessSkill` ignores its first argument: the skill name never reaches the
  assessor (`Gateway.AssessSkill`).
- A new plan is stored with progress 0 even if the generated tasks arrive marked
  completed. Progress is recomputed only on the first toggle.

## Model

| member | source | states |
|---|---|---|
| `PlanModel.Plan.constructor` | src/services/storage.service.ts:3-11 | a plan object holds exactly the id, skill, config, modules, progress, journal and timestamp it is built with |
| `PlanModel.TaskCount` | src/components/dashboard.component.ts:213-218 | the `total` the nested loop counts, the denominator of progress; carried by `Dashboard.CountTasks`, `PlanModel.CompletedCount` and `PlanModel.FlipTaskCounts` |
| `PlanModel.LogsOrEmpty` | src/components/dashboard.component.ts:228 | a missing journal reads as the empty one; carried by `Dashboard.DashboardView.AddLog` |
| `PlanModel.CompletedIn` | src/components/dashboard.component.ts:215-218 | the completed tasks of one module never outnumber its tasks |
| `PlanModel.CompletedCount` | src/components/dashboard.component.ts:213-218 | completed tasks over all modules never outnumber all tasks |
| `PlanModel.RoundedPercent` | src/components/dashboard.component.ts:220 | `Math.round(c/t*100)` on exact numbers: at most 100, and within half a step of 100c/t with halves rounded up |
| `PlanModel.Progress` | src/components/dashboard.component.ts:213-220 | progress is 0 without tasks, otherwise the rounded percentage of completed tasks; never above 100 |
| `PlanModel.RoundedPercentUnique` | src/components/dashboard.component.ts:220 | the rounded percentage is the only integer within half a step of 100c/t |
| `PlanModel.NoneCompletedIsZero` | src/components/dashboard.component.ts:220 | no task done gives progress 0 |
| `PlanModel.AllCompletedIsHundred` | src/components/dashboard.component.ts:220 | every task done gives progress 100 |
| `PlanModel.HalfCompletedIsFifty` | src/components/dashboard.component.ts:220 | half of the tasks done gives progress 50 |
| `PlanModel.FlipTask` | src/components/dashboard.component.ts:210 | flipping a task keeps the number of modules and of that module's tasks |
| `PlanModel.FlipTaskChangesOneFlag` | src/components/dashboard.component.ts:206-210 | a toggle negates exactly the chosen task's flag; every other module, task and field is unchanged |
| `PlanModel.FlipTaskTwice` | src/components/dashboard.component.ts:210 | toggling the same task twice gives back the modules |
| `PlanModel.FlipInTasks` | src/components/dashboard.component.ts:210-218 | a toggle moves one module's completed count by one, down if the task was done, up if not |
| `PlanModel.FlipTaskCounts` | src/components/dashboard.component.ts:210-218 | a toggle keeps the task total and moves the completed total by exactly one |
| `PlanModel.ToggleTwiceRestoresProgress` | src/components/dashboard.component.ts:210-220 | toggling the same task twice restores the recomputed progress |
| `Storage.Upsert` | src/services/storage.service.ts:47-56 | the saved plan is in the result; the length is kept when its id is present and grows by one otherwise |
| `Storage.UpsertKeepsOthers` | src/services/storage.service.ts:49-55 | a save keeps every plan with another id |
| `Storage.FindIndex` | src/services/storage.service.ts:49 | `findIndex`: the first position with the id, or -1 when no plan has it |
| `Storage.RemoveId` | src/services/storage.service.ts:64 | `filter`: the result holds only plans with another id, all of them, and is no longer than before |
| `Storage.Snapshot` | src/services/storage.service.ts:75-76 | the written value lists, position by position, the value of each plan object |
| `Storage.UpsertReplacesFirst` | src/services/storage.service.ts:49-54 | saving a present id replaces the first plan with that id in place; length and every other entry unchanged |
| `Storage.UpsertAppendsNew` | src/services/storage.service.ts:49-55 | saving a new id appends the plan after the existing ones |
| `Storage.UpsertContains` | src/services/storage.service.ts:49-56 | after a save the saved plan is the first entry with its id |
| `Storage.UpsertIdempotent` | src/services/storage.service.ts:47-59 | saving the same plan twice equals saving it once |
| `Storage.UpsertStoredObject` | src/services/storage.service.ts:49-53 | saving the object already stored under its id keeps the list of plans as it is |
| `Storage.RemoveIdConcat` | src/services/storage.service.ts:64 | deleting works piecewise over a split list, so the kept plans keep their order |
| `Storage.RemoveAbsentId` | src/services/storage.service.ts:64 | deleting an id no plan carries changes nothing |
| `Storage.RemoveIdTwice` | src/services/storage.service.ts:62-67 | deleting twice equals deleting once |
| `Storage.PlanStore.constructor` | src/services/storage.service.ts:28-41 | the service starts with the loaded plans (their written value), signed out |
| `Storage.PlanStore.SavePlan` | src/services/storage.service.ts:47-60 | the collection becomes the upsert, and storage holds its value |
| `Storage.PlanStore.DeletePlan` | src/services/storage.service.ts:62-68 | the collection becomes the filtered list, and storage holds its value |
| `Storage.PlanStore.Persist` | src/services/storage.service.ts:75-78 | storage holds the value of the list given |
| `Storage.PlanStore.LoginToGoogle` | src/services/storage.service.ts:85-93 | signed in, with the placeholder profile |
| `Storage.PlanStore.Logout` | src/services/storage.service.ts:95-98 | signed out, with no profile |
| `Schemas.FilledConforms` | src/services/ai.service.ts:76-105 | a reply that fills every declared property conforms |
| `Schemas.EmptyObjectConforms` | src/services/ai.service.ts:76-90 | without a `required` list every property is optional: the empty object conforms to any object schema, though it fills none with properties |
| `Schemas.StringsShape` | src/services/ai.service.ts:19-22 | a value conforms to the suggestions schema exactly when it is an array of strings |
| `Schemas.ResourceShape` | src/services/ai.service.ts:82-87 | a value fills the resource schema exactly when it is an object of two strings, title and url; each such object conforms |
| `Schemas.TaskShape` | src/services/ai.service.ts:76-90 | filling the task schema is exactly the task shape: title, description, boolean completed, array of resources; each such object conforms |
| `Schemas.ModuleShape` | src/services/ai.service.ts:92-100 | filling the module schema is exactly the module shape: title, integer week, description, array of tasks; each such object conforms |
| `Schemas.QuestionShape` | src/services/ai.service.ts:128-135 | filling the question schema is exactly question, string options, integer correctIndex; each such object conforms |
| `Schemas.ResourceRoundTrip` | src/services/ai.service.ts:82-87 | a resource written as JSON has the resource shape and reads back as itself |
| `Schemas.ResourceBack` | src/services/ai.service.ts:82-87 | a value of the resource shape is the JSON of the resource it reads as |
| `Schemas.TaskRoundTrip` | src/services/ai.service.ts:76-90 | a task written as JSON has the task shape and reads back as itself |
| `Schemas.TaskBack` | src/services/ai.service.ts:76-90 | a value of the task shape is the JSON of the task it reads as |
| `Schemas.ModuleRoundTrip` | src/services/ai.service.ts:92-100 | a module written as JSON has the module shape and reads back as itself |
| `Schemas.ModuleBack` | src/services/ai.service.ts:92-100 | a value of the module shape is the JSON of the module it reads as |
| `Schemas.ModulesEncodeDecode` | src/services/ai.service.ts:102-105 | every module list is written as JSON that fills, hence conforms to, the plan schema and decodes back to itself |
| `Schemas.ModulesDecodeEncode` | src/services/ai.service.ts:102-105 | a reply decodes as modules exactly when it fills the plan schema; it then conforms and is their JSON |
| `Schemas.PartialPlanConforms` | src/services/ai.service.ts:92-105 | a plan reply whose module carries only a title conforms to the plan schema but decodes to no module list |
| `Schemas.QuestionRoundTrip` | src/services/ai.service.ts:128-135 | a question written as JSON has the question shape and reads back as itself |
| `Schemas.QuestionBack` | src/services/ai.service.ts:128-135 | a value of the question shape is the JSON of the question it reads as |
| `Schemas.QuizEncodeDecode` | src/services/ai.service.ts:126-136 | every question list fills, hence conforms to, the quiz schema and decodes back to itself |
| `Schemas.QuizDecodeEncode` | src/services/ai.service.ts:126-136 | a reply decodes as a quiz exactly when it fills the quiz schema; it then conforms and is its JSON |
| `Schemas.PartialQuizConforms` | src/services/ai.service.ts:126-136 | a quiz reply whose question carries only its text conforms to the quiz schema but decodes to no quiz |
| `Schemas.StringsEncodeDecode` | src/services/ai.service.ts:19-22 | string lists conform and read back; a reply decodes exactly when it conforms |
| `Schemas.Conforms` | src/services/ai.service.ts:76-105 | a reply the endpoint may give: the right kind at every level, only declared properties, each optional since no schema (`SuggestionsSchema`, `ResourceSchema`, `TaskSchema`, `ModuleSchema`, `PlanSchema`, `QuestionSchema`, `QuizSchema`) lists `required`; carried by `EmptyObjectConforms`, the Shape lemmas and the Partial lemmas |
| `Gateway.ParseReply` | src/services/ai.service.ts:33 | `JSON.parse(text \|\| '[]')`: no text gives the empty list, parsed text its items; a parse error or failed call is an error of that kind |
| `Gateway.SuggestionsAbsorbFailures` | src/services/ai.service.ts:24-37 | suggestions never fail: any failure gives the six fixed skills, and the result is empty only for an empty reply |
| `Gateway.GenerateSuggestions` | src/services/ai.service.ts:17-38 | the parsed list, or the six fixed skills for any failure; carried by `SuggestionsAbsorbFailures` |
| `Gateway.GeneratePlan` | src/services/ai.service.ts:107-121 | the parsed modules, every failure thrown on with its kind; carried by `PlanAndQuizPropagateFailures` |
| `Gateway.GenerateQuiz` | src/services/ai.service.ts:138-144 | the parsed questions, every failure reaching the caller; carried by `PlanAndQuizPropagateFailures` |
| `Gateway.SuggestionsPrompt` | src/services/ai.service.ts:27 | the history quoted inside the fixed request for six skills; carried by `SuggestionsPromptEmbedsHistory` |
| `Gateway.PlanPrompt` | src/services/ai.service.ts:65-74 | the quoted skill, configuration JSON, summary and four-week request; carried by `PlanPromptEmbedsInputs` |
| `Gateway.QuizPrompt` | src/services/ai.service.ts:140 | the topic quoted inside the request for three questions; carried by `QuizPromptEmbedsTopic` |
| `Gateway.ConfigJson` | src/services/ai.service.ts:67 | `JSON.stringify` of the context and framework, each quoted so that it reads back whole; carried by `ConfigJsonReadsBack` |
| `Gateway.ConfigJsonReadsBack` | src/services/ai.service.ts:67 | a JSON reader ends the context's string and the framework's string each at its own closing quote, and unescapes them to the context and the framework |
| `Gateway.Truthy` | src/services/ai.service.ts:44 | `if (image)`: an absent or empty image is false; carried by `BuildParts` and `Assessment.ImagePayload` |
| `Gateway.BuildParts` | src/services/ai.service.ts:42-49 | one image part first when a non-empty image is given, and exactly one text part with the input, last |
| `Gateway.AssessSkill` | src/services/ai.service.ts:40-60 | the request is a user turn with those parts and the assessor instruction; an empty reply becomes the try-again text; a failed call is thrown on |
| `Gateway.PlanAndQuizPropagateFailures` | src/services/ai.service.ts:117-144 | plan and quiz generation fail exactly when the reply is unparsable or the call failed, with that kind; an empty reply is an empty list |
| `Gateway.SuggestionsPromptEmbedsHistory` | src/services/ai.service.ts:27 | the suggestions prompt contains the history as it is, between double quotes |
| `Gateway.QuizPromptEmbedsTopic` | src/services/ai.service.ts:140 | the quiz prompt contains the topic as it is, between double quotes |
| `Gateway.PlanPromptEmbedsInputs` | src/services/ai.service.ts:65-74 | the plan prompt contains the quoted skill, the configuration JSON, the summary and the four-week request |
| `Text.TrimStart` | src/components/assessment.component.ts:141 | `trim`'s first half: removes only leading whitespace, and all of it |
| `Text.Trim` | src/components/dashboard.component.ts:226 | `trim()`, leading then trailing whitespace removed; carried by `TrimStart`, `TrimEnd` and `BlankIffAllWhitespace` |
| `Text.TrimEnd` | src/components/assessment.component.ts:141 | `trim`'s second half: removes only trailing whitespace, and all of it |
| `Text.BlankIffAllWhitespace` | src/components/home.component.ts:136 | `!text.trim()` holds exactly when every character is whitespace |
| `Text.IsBlank` | src/components/home.component.ts:136 | `!text.trim()`; carried by `BlankIffAllWhitespace` |
| `Text.Join` | src/components/assessment.component.ts:166-171 | `join(sep)` of the parts in order; carried by `JoinEmptyIff`, `Home.HistoryCons` and `Assessment.SummaryOfTwoAnswers` |
| `Text.JoinEmptyIff` | src/components/assessment.component.ts:166-171 | a join with a non-empty separator is empty only for no parts or one empty part |
| `Text.Escape` | src/services/ai.service.ts:67 | how `JSON.stringify` writes a string's characters; carried by `UnescapeEscape`, `EscapeHasNoBareQuote` and `EscapeEndsAtClosingQuote` |
| `Text.Quote` | src/services/ai.service.ts:67 | `JSON.stringify` of a string: its escaped text between double quotes; carried by `QuotedReadsBack` |
| `Text.UnescapeEscape` | src/services/ai.service.ts:67 | the string quoting of `JSON.stringify` loses nothing: reading it back gives the text |
| `Text.EscapeHasNoBareQuote` | src/services/ai.service.ts:67 | every double quote in an escaped text comes right after a backslash |
| `Text.ScanEnd` | src/services/ai.service.ts:67 | where a JSON reader ends a string body: never past the text, and on a double quote when inside it |
| `Text.ScanEscapeChar` | src/services/ai.service.ts:67 | the reader steps over each escaped character as a whole |
| `Text.EscapeEndsAtClosingQuote` | src/services/ai.service.ts:67 | a quoted value cannot end its JSON string early: the reader stops at the quote after the escaped text, whatever follows |
| `Text.QuotedReadsBack` | src/services/ai.service.ts:67 | a quoted value after any prefix is read back whole: the string ends at the closing quote and unescapes to the value |
| `Text.IndexOf` | src/components/assessment.component.ts:147 | the first position of the separator, or -1 when there is none |
| `Text.SecondField` | src/components/assessment.component.ts:147 | `split(sep)[1]` exists exactly when the separator occurs, and holds no separator |
| `Text.SecondFieldOf` | src/components/assessment.component.ts:147 | `split(',')[1]` of `head,body` or `head,body,...` is `body` |
| `Conversation.UserTexts` | src/components/assessment.component.ts:166-168 | the user texts are never more than the messages |
| `Conversation.UserTextsAppend` | src/components/assessment.component.ts:166-168 | a user message adds its text at the end; a model message adds nothing |
| `Conversation.UserTextsAreUserMessages` | src/components/assessment.component.ts:166-168 | a text is among the user texts exactly when some user message carries it |
| `Assessment.ImagePayload` | src/components/assessment.component.ts:147 | an image is sent exactly when the pending data URL is non-empty and holds a comma, and the payload holds no comma |
| `Assessment.DataUrlPayload` | src/components/assessment.component.ts:147 | a data URL `header,data` sends only its data |
| `Assessment.Summary` | src/components/assessment.component.ts:164-172 | the summary is never empty; `SummaryDefault`, `SummaryOfTwoAnswers` and `SummaryImageOnly` give its value |
| `Assessment.SummaryDefault` | src/components/assessment.component.ts:164-172 | the summary is "Beginner" exactly when there is no user message or one with empty text (an image alone), otherwise the texts joined with ". " |
| `Assessment.SummaryOfTwoAnswers` | src/components/assessment.component.ts:164-172 | two answers between model replies give the answers joined with ". ", e.g. "I am new. I play a bit", even when the first is empty (an image alone) |
| `Assessment.SummaryImageOnly` | src/components/assessment.component.ts:164-172 | an answer that is only an image leaves the summary at "Beginner" |
| `Assessment.ExchangeExtendsSummary` | src/components/assessment.component.ts:143-158 | a sent message and its reply add exactly that message's text to the summary's parts, an empty text sent with an image included |
| `Assessment.AssessmentSession.Accepts` | src/components/assessment.component.ts:141 | the send guard: text that is not blank or a pending image, and not busy; carried by `SendMessage` and `OnVoiceResult` |
| `Assessment.AssessmentSession.constructor` | src/components/assessment.component.ts:90-98 | the transcript is the greeting alone; idle, no pending image, not listening |
| `Assessment.AssessmentSession.SendMessage` | src/components/assessment.component.ts:140-150 | blocked for blank text without an image, or while busy; otherwise the user message with the pending image is added, the image cleared, the session busy, and the call carries the data-URL payload |
| `Assessment.AssessmentSession.ReceiveReply` | src/components/assessment.component.ts:152-161 | exactly one model message is added (the reply, the try-again text for an empty reply, or the apology on failure), and the session is idle |
| `Assessment.AssessmentSession.ImageLoaded` | src/components/assessment.component.ts:131-138 | the picked image's data URL is pending |
| `Assessment.AssessmentSession.ToggleVoice` | src/components/assessment.component.ts:117-129 | without a recognizer nothing changes; otherwise listening flips |
| `Assessment.AssessmentSession.OnVoiceResult` | src/components/assessment.component.ts:107-111 | the transcript is sent as a message under the same guard, then listening stops |
| `Assessment.AssessmentSession.OnVoiceStop` | src/components/assessment.component.ts:112-113 | an error or end of recognition stops listening |
| `Assessment.AssessmentSession.FinishAssessment` | src/components/assessment.component.ts:164-172 | the summary emitted is the transcript's summary, never empty |
| `Dashboard.CurrentTasks` | src/components/dashboard.component.ts:195 | the current module's tasks, none past the modules; carried by `CurrentTasksAreToggleable` |
| `Dashboard.CurrentTitle` | src/components/dashboard.component.ts:241 | the current module's title, "undefined" past the modules; carried by `CurrentTasksAreToggleable` |
| `Dashboard.TutorInstruction` | src/components/dashboard.component.ts:256 | the tutor instruction naming the plan's skill; used by `DashboardView.SendSageQuestion` |
| `Dashboard.CurrentTasksAreToggleable` | src/components/dashboard.component.ts:195-210 | the tasks shown are exactly those a toggle can reach; past the modules there are none and the title reads "undefined" |
| `Dashboard.CountTasks` | src/components/dashboard.component.ts:212-218 | the nested loop counts every task and every completed task |
| `Dashboard.DashboardView.constructor` | src/components/dashboard.component.ts:194-199 | first module selected, quiz closed and empty, no tutor messages |
| `Dashboard.DashboardView.SelectModule` | src/components/dashboard.component.ts:54 | the clicked module becomes current |
| `Dashboard.DashboardView.ToggleTask` | src/components/dashboard.component.ts:205-223 | the task's flag is flipped, progress recomputed, journal untouched, the plan saved and stored with its new value; indices that reach no task change nothing |
| `Dashboard.DashboardView.AddLog` | src/components/dashboard.component.ts:225-236 | blank text changes nothing; otherwise one entry is put before the old journal (missing counts as empty) and the plan saved |
| `Dashboard.DashboardView.StartQuiz` | src/components/dashboard.component.ts:238-241 | the quiz opens empty; the topic is the current module's title |
| `Dashboard.DashboardView.ReceiveQuiz` | src/components/dashboard.component.ts:242-248 | the questions are shown, or on failure the quiz closes with its list unchanged |
| `Dashboard.DashboardView.CloseQuiz` | src/components/dashboard.component.ts:107-125 | the quiz closes |
| `Dashboard.DashboardView.SendSageQuestion` | src/components/dashboard.component.ts:251-257 | blank text changes nothing; otherwise the question is shown at once and sent with the tutor instruction |
| `Dashboard.DashboardView.ReceiveSageReply` | src/components/dashboard.component.ts:257-261 | the answer is added after whatever the chat holds by then; a failed call adds nothing |
| `Home.Skills` | src/components/home.component.ts:165 | one skill per plan, in list order |
| `Home.History` | src/components/home.component.ts:165 | the skills of the plans joined with ", "; carried by `HistoryEmptyIff` and `HistoryCons` |
| `Home.HistoryEmptyIff` | src/components/home.component.ts:165 | the history is empty only with no plan or a single plan with an empty skill |
| `Home.HistoryCons` | src/components/home.component.ts:165 | the history is the skills in list order separated by ", " |
| `Home.HomeView.constructor` | src/components/home.component.ts:128-133 | coach closed, the coach greeting alone, the six initial suggestions |
| `Home.HomeView.SendCoachQuestion` | src/components/home.component.ts:135-142 | blank text changes nothing; otherwise the question is shown at once and sent with the coach instruction |
| `Home.HomeView.ReceiveCoachReply` | src/components/home.component.ts:142-146 | exactly one model message is added after whatever the chat holds by then: the answer, or the fixed fallback on failure |
| `Home.HomeView.ToggleCoach` | src/components/home.component.ts:149-151 | the coach panel flips open or closed |
| `Home.HomeView.DeletePlan` | src/components/home.component.ts:157-161 | the plan is deleted only when confirmed; otherwise the collection and storage are unchanged |
| `Home.HomeView.RefreshSuggestions` | src/components/home.component.ts:163-165 | the placeholder shows while the skills of the stored plans are sent |
| `Home.HomeView.ReceiveSuggestions` | src/components/home.component.ts:166-167 | the suggestions become what generation returned (the fixed list on failure) |
| `App.SeededSkill` | src/app.component.ts:123-134 | a string, or a truthy `detail`, seeds the wizard; nothing else does |
| `App.NextEnabled` | src/app.component.ts:56 | the Next button's `!skill` binding; carried by `NextAcceptsBlankSkill` and `App.PressNext` |
| `App.NextAcceptsBlankSkill` | src/app.component.ts:56 | the Next button lets a skill of spaces through |
| `App.App.constructor` | src/app.component.ts:99-110 | home screen, no plan shown, an empty draft with the Standard framework |
| `App.App.OpenPlan` | src/app.component.ts:112-115 | the picked plan is shown on the dashboard |
| `App.App.StartWizard` | src/app.component.ts:117-120 | a fresh empty draft, then the wizard |
| `App.App.SuggestionSelected` | src/app.component.ts:123-134 | a usable selection seeds a draft with the suggestion context and the Standard framework and opens the wizard; anything else changes nothing |
| `App.App.EditSkill` | src/app.component.ts:40 | only the draft's skill changes |
| `App.App.EditContext` | src/app.component.ts:45 | only the draft's context changes |
| `App.App.ChooseFramework` | src/app.component.ts:51-52 | only the draft's framework changes |
| `App.App.GoToAssessment` | src/app.component.ts:136-138 | the assessment screen, unconditionally |
| `App.App.PressNext` | src/app.component.ts:56 | the assessment opens exactly when the skill is not empty |
| `App.App.GoHome` | src/app.component.ts:31-85 | back to the home screen, draft and shown plan kept |
| `App.App.BeginGeneratePlan` | src/app.component.ts:140-149 | the generating screen, and the plan prompt built from the draft and the summary |
| `App.App.FinishGeneratePlan` | src/app.component.ts:150-170 | on success a new plan (draft, modules, progress 0, empty journal) is saved, shown, and the dashboard opens; on failure the home screen with the store unchanged; the dashboard always has a plan |

## Left out

- Browser storage and `JSON.parse`/`JSON.stringify` of stored plans: storage is the ghost snapshot of plan values. `loadLocal` takes already-decoded plans, and a malformed stored value is not modelled.
- A storage write that throws inside `savePlan`/`deletePlan` (a full quota): the model's writes always succeed.
- `saveSchedule` and the schedule default are left out because they are plain assignments with no rule. The same goes for `startSuggestion`, a bare emit of its argument that `App.App.SuggestionSelected` receives.
- The generation SDK, model names and the chat object: their outcomes are parameters. The content of generated text is not modelled beyond the schemas.
- PlanModel.RoundedPercent: models `Math.round((completed / total) * 100)` on exact numbers. Double rounding can round some exact halves down, for example 29 of 200.
- `FileReader`, speech recognition, `alert` and `confirm`: an image arrives as its data URL, a recognised phrase as text, and a confirmation as a boolean. Alerts have no state.
- `Date.now()` and `toLocaleDateString()` are parameters. Ids derived from them are not unique in general, and the model does not assume they are.
- Interleaving of pending calls with navigation: each half of a split handler is atomic. A reply arriving after the user has left the screen is not modelled.
- The tab bar of the dashboard and every other purely visual state.
- A `detail` that is a truthy non-string is not modelled: `App.Selection` carries `detail` as an optional string.
- Gateway.ParseReply: the parsed reply is taken as already typed and complete. The code itself does not validate replies against the schemas.
- ResourceShape: characterises the resource objects that fill both properties; the schema makes both optional, and a resource missing one has no typed reading here.
- TaskShape: characterises the task objects that fill all four properties; the schema makes each optional, and a task missing one has no typed reading here.
- ModuleShape: characterises the module objects that fill all four properties; the schema makes each optional, and a module missing one has no typed reading here.
- QuestionShape: characterises the question objects that fill all three properties; the schema makes each optional, and a question missing one has no typed reading here.
- ModulesDecodeEncode: a plan reply decodes exactly when it fills the schema, not whenever it conforms; the model assumes the endpoint fills every property the schemas leave optional (`Schemas.PartialPlanConforms` shows a conforming reply outside that).
- QuizDecodeEncode: a quiz reply decodes exactly when it fills the schema, not whenever it conforms; the same assumption (`Schemas.PartialQuizConforms`).
- ToggleTask: modules always carry a task list here. A conforming plan reply may omit `tasks`; when another module lacks it, the code flips the chosen task's flag, then throws in the counting loop (dashboard.component.ts line 215), leaving the flip in the plan object unsaved and its progress stale. That partial update is not modelled.
