# FORGEAI agent client, modelled in Dafny

FORGEAI is a fitness web application. Its client hands a language-model agent the user's profile, training state and recent sessions; turns the agent's free-form reply into a structured `WorkoutPlan`; and keeps one `AppState` that the top-level component replaces on every event. This project models the following parts of the client and proves properties about them:

- **The reply pipeline of `geminiService.ts`.** The prompt builders (`buildHistoryContext` and the state block of `generateForgeResponse`), and the exercise normaliser `normalizeExercises`. It also covers `getStructuredWorkout`: fence stripping, the brace slice, the falsy-default table, the single remote re-extraction and the wrapped rejection.
- **The state transitions of `App.tsx`.** The sign-in reconciliation, loading history from the database, finishing a session, onboarding, requesting the next plan and the weight update. Each is a function from the old `AppState` to the new one, applied in place by the class `App.Store`.
- **The data model of `types.ts`.**
- **The deterministic logic of four views.**
  - The session checklist and abort rules (`WorkoutView`).
  - The chart, calendar and text truncations (`Dashboard`).
  - The sorted activity log (`HistoryView`).
  - The onboarding wizard (`Onboarding`).
- **The pagination and error helpers of the database configuration** (`server/config/supabase.js`).

## How JavaScript is modelled

- **Dynamic values.** A value is `JsValue.Value`: undefined, null, a boolean, an integer, a string, an array or an object. An object is an association list.
  - `Truthy` and `Or` are JavaScript's truthiness and `||`.
  - `Get` is a property read that can throw: `None` stands for the `TypeError` raised on `null` or `undefined`.
  - `GetOpt` is optional chaining, `x?.k`.
  - `ToJsString` is template-literal conversion; `Stringify` is `JSON.stringify`.
- **Oracles passed in as arguments.** Four things the client does not compute are parameters:
  - `parse: string -> Option<Value>` stands for `JSON.parse`, with `None` for a `SyntaxError`.
  - `agent: string -> Proxy.Reply` stands for the agent endpoint, which answers with a status and body or is unreachable.
  - `timeOf` and `now` stand for `new Date(...)` and its fallback.
  - `dayKey` stands for the calendar's ISO day text.
- **Operations that can throw** return `Option` or `Result`. A rejection carries a `Proxy.Failure`.
- **Numbers are integers.** The two percentages use the integer form of round-half-up, `(200*k + n) / (2*n)`.

## Model

| member | source | states |
|---|---|---|
| Types.FatigueNamed | types.ts:31 | a name denotes a fatigue level exactly when it is one of "low", "medium", "high", and then that level's name is the text |
| Types.AgentFocusNamed | types.ts:33 | a name denotes an agent focus exactly when it is one of the four declared names |
| Types.FatigueNamesRoundTrip | types.ts:31 | reading back a fatigue level's name gives the level |
| Types.AgentFocusNamesRoundTrip | types.ts:33 | reading back a focus's name gives the focus |
| Types.PlanToValue | App.tsx:208-214 | the object stored for a finished plan answers `title`, `phase` and `reasoning` with the plan's own fields |
| Normalize.NormalizeExercises | geminiService.ts:97-100 | a non-array gives `[]`; an array gives the flat-map over its items |
| Normalize.NormalizeList | geminiService.ts:100-140 | the flat-map succeeds exactly when no item's expansion throws |
| Normalize.NormalizeItem | geminiService.ts:100-140 | an item throws exactly when it is null or undefined, or a block whose movement field is not an array |
| Normalize.NormalizeSingle | geminiService.ts:100 | a one-item list expands to exactly that item's expansion |
| Normalize.NormalizeAppend | geminiService.ts:100 | normalising a concatenation concatenates the normalised parts in order, and fails if either part fails |
| Normalize.StringRecord | geminiService.ts:102-108 | the record built from a string is named by it, has the fixed notes, no sets or reps, and a duration only when the text mentions "minute" |
| Normalize.StringItemRule | geminiService.ts:102-108 | rule 1: a string, even "", yields one record; a "minute" text with digits gets its first digit run plus " min", one without digits gets "undefined min" |
| Normalize.BlockEntry | geminiService.ts:115-125 | a string movement becomes a record with the block's sets/reps (default "3"/"10") and notes `Details`, then `details`, then the block name; any other movement is kept as is |
| Normalize.MapBlock | geminiService.ts:115 | one entry per movement, in order |
| Normalize.BlockItemRule | geminiService.ts:111-126 | rule 2, tried before the name: a truthy `Block`/`block` with a movement array yields exactly one entry per movement, with the block's defaults |
| Normalize.ThrowingItems | geminiService.ts:111-115 | null and undefined items throw, and so does a block whose movements are truthy but not an array |
| Normalize.NamedRecord | geminiService.ts:129-137 | the named record takes `name` or else `movement`, copies sets/reps/duration, and its notes follow the precedence of the conditional over `notes or RPE` |
| Normalize.NamedItemRule | geminiService.ts:129-137 | rule 3: one record; the notes become "RPE: <RPE>" whenever notes or RPE is truthy, and are absent otherwise, so the original notes text is never kept |
| Normalize.PassThroughRule | geminiService.ts:139 | rule 4: an item matching no rule is passed through unchanged |
| Normalize.StringRecordIsExercise | types.ts:13-19 | a string item always yields a record of the declared `Exercise` shape |
| Normalize.NamedRecordIsExercise | types.ts:13-19 | a named item yields a declared `Exercise` exactly when the copied fields have the declared types |
| Normalize.StringRecordKeys | geminiService.ts:103-107 | a string record has no key besides name, duration and notes |
| Normalize.MobilityBlockExample | geminiService.ts:111-126 | a block with two string movements and details yields the two expected records |
| Normalize.EmptyBlockIsDropped | geminiService.ts:113-115 | a block without movements disappears from the output |
| Normalize.RowFirstPass | geminiService.ts:102-108 | normalising `["Row"]` yields the string record |
| Normalize.RowSecondPass | geminiService.ts:129-137 | normalising that record again goes through rule 3 and gives notes "RPE: undefined" |
| Normalize.RenormalizingRewritesNotes | geminiService.ts:135 | normalising twice is not normalising once: "Complete as described" becomes "RPE: undefined" |
| PlanParser.StripFencesClean | geminiService.ts:149 | after `replace(/```json/g, '')`, `replace(/```/g, '')` and `trim()`, the text contains no "```", is no longer than the input and has no whitespace at either end |
| PlanParser.LocalSliceKeepsUnbraced | geminiService.ts:151-155 | without a `{` or without a `}` the local slice leaves the text unchanged |
| PlanParser.LocalSliceSpan | geminiService.ts:151-155 | when the last `}` follows the first `{`, the local slice is the span from the one to the other, inclusive |
| PlanParser.LocalSliceReversed | geminiService.ts:151-155 | when the last `}` precedes the first `{`, `substring` swaps its bounds and the slice is the text strictly between them |
| PlanParser.RegexSliceSpan | geminiService.ts:221-224 | the remote slice is the span from the first `{` to the last `}` when a `}` follows the first `{`, and the text unchanged otherwise |
| PlanParser.SlicesAgreeUnlessReversed | geminiService.ts:221-224 | the two stages cut the same span unless the last `}` precedes the first `{` |
| PlanParser.ReversedBracesExample | geminiService.ts:154 | on "}x{" the local stage keeps "x" while the remote stage keeps the whole text |
| PlanParser.BuildPlanFails | geminiService.ts:161-173 | building the plan throws exactly on a null parse result or on a list whose normalisation throws |
| PlanParser.ScalarDefaults | geminiService.ts:162-172 | each scalar field is the parsed value when truthy and its default otherwise ("Agent Workout", `reasoning` then `rationale` then the fixed sentence, "medium", 0, "Execution", ...) |
| PlanParser.ListSources | geminiService.ts:163-165 | the lists are the normalised `warmup`, `cooldown`, and the first truthy of `mainExercises`, `mainBlock`, `main`; an empty array counts as present |
| PlanParser.PlanScalarsTruthy | geminiService.ts:161-173 | every field except `consistencyScore` of a built plan is truthy |
| PlanParser.NonObjectGivesDefaultPlan | geminiService.ts:161-173 | a parsed number, string, boolean or array gives the all-defaults plan |
| PlanParser.BuildPlan | geminiService.ts:161-173 | the defaulting table itself, with no contract of its own; what it means is stated by BuildPlanFails, ScalarDefaults, ListSources, PlanScalarsTruthy and NonObjectGivesDefaultPlan |
| PlanParser.DefaultFocusBreaksDeclaredType | geminiService.ts:172 | the default focus "Execution" is not a declared focus, so such a plan does not conform to the declared type |
| PlanParser.LocalStage | geminiService.ts:145-177 | the first try block: strip, slice, parse, default; None when any of it throws |
| PlanParser.RemoteStage | geminiService.ts:209-244 | the second try block after the request: a non-ok status is rejected with status and body, otherwise the reply's `text` is cleaned and parsed |
| PlanParser.ExtractStage | geminiService.ts:218-244 | cleaning, regex slice, parse and defaulting of the re-extracted text |
| PlanParser.GetStructuredWorkout | geminiService.ts:143-250 | the outcome is the local plan when the local stage succeeds, with no request; otherwise exactly one request carries the original text and its result decides |
| PlanParser.StructuredOutcome | geminiService.ts:143-250 | the outcome of the whole operation, with no contract of its own: the local plan when the local stage succeeds, otherwise the remote stage on the agent's reply to the one extraction request; stated by GetStructuredWorkout, FailureOnlyAfterRemote, HttpFailureReported and StructuredPlanTruthy |
| PlanParser.StructuredPlanTruthy | geminiService.ts:161-173 | whichever stage delivers it, a plan has a truthy title, phase, fatigue level and focus |
| PlanParser.FailureMessage | geminiService.ts:245-249 | every rejection message starts with "Failed to parse workout: "; for a non-ok reply it goes on with the status and the body |
| PlanParser.FailureOnlyAfterRemote | geminiService.ts:175-180 | a rejection means the local stage failed and the single remote attempt failed |
| PlanParser.HttpFailureReported | geminiService.ts:209-212 | a non-ok reply is reported with its status and body, whatever the body holds |
| PlanParser.LegDayFences | geminiService.ts:149 | removing the fences from a fenced reply leaves the JSON between two line breaks |
| PlanParser.LegDayTrim | geminiService.ts:149 | trimming that leaves exactly the JSON |
| PlanParser.LegDayCleaning | geminiService.ts:149-155 | the whole local cleanup of the fenced reply gives the JSON, which the slice keeps whole |
| PlanParser.LegDayDefaults | geminiService.ts:161-173 | `{"title":"Leg Day"}` builds the plan with that title and every other default |
| PlanParser.LegDayExample | geminiService.ts:143-173 | the fenced reply is parsed locally into that plan, and the whole operation resolves with it |
| Agent.Recent | geminiService.ts:24 | `slice(-7)` is the last min(7, n) entries of the array |
| Agent.SummaryLine | geminiService.ts:29-39 | each summary is one line without a line break, starting with `{` and ending with `}` |
| Agent.SummaryLines | geminiService.ts:28-40 | one summary line per entry, in order |
| Agent.HistoryContext | geminiService.ts:23-42 | `buildHistoryContext`, with no contract of its own; its meaning is stated by HistoryContextLines, HistoryContextEnd and NewestSessionNotShown |
| Agent.HistoryContextLines | geminiService.ts:23-42 | "None" for an empty history; otherwise splitting at line breaks gives back the summaries of the last seven entries, one per line |
| Agent.JoinedSummariesEnds | geminiService.ts:31-40 | the joined summaries of a non-empty list start with `{` and end with `}` |
| Agent.HistoryContextEnd | geminiService.ts:25-41 | the context never ends in whitespace, and starts with `{` when there is history |
| Agent.NewestSessionNotShown | geminiService.ts:24 | with seven or more entries, a session recorded in front of the newest-first history does not appear in the context |
| Agent.StateContext | geminiService.ts:56-69 | the trimmed state block, with no contract of its own; StateContextIsBody states what trimming leaves of it |
| Agent.StateContextIsBody | geminiService.ts:56-69 | trimming removes exactly the template's first and last line break from the state block |
| Agent.FullPromptLayout | geminiService.ts:71 | the prompt is the system prompt, the "CURRENT AGENT STATE:" block and "USER INPUT:" followed by the user's input, in that order |
| Agent.FullPromptEnds | geminiService.ts:71 | the prompt starts with the system prompt and ends with the user's input |
| Agent.FullPrompt | geminiService.ts:71 | the `fullPrompt` concatenation, with no contract of its own; its layout is stated by FullPromptLayout and FullPromptEnds |
| Agent.LimitationsShown | geminiService.ts:61 | empty limitations are shown as "None", any others as written |
| Agent.GenerateForgeResponse | geminiService.ts:46-94 | the request carries the full prompt, and the result is what the reply to exactly that prompt resolves or rejects with |
| Agent.RejectionMessages | geminiService.ts:83-86 | a non-ok reply is rejected with `details`, else `error`, else the fixed message |
| Agent.OkReplyPassesText | geminiService.ts:88-89 | an ok reply resolves with its `text`, even when that is not a string |
| Agent.ForgeOutcome | geminiService.ts:74-92 | what `generateForgeResponse` resolves or rejects with, with no contract of its own; stated by RejectionMessages, OkReplyPassesText and GenerateForgeResponse |
| Arith.RoundPercentMeaning | components/WorkoutView.tsx:22 | the integer percentage is the whole number nearest `100*k/n`, a half rounding up; it is at most 100 while `k <= n`, 100 for `k = n` and 0 for `k = 0` |
| App.CountCompleted | App.tsx:79 | the completed count never exceeds the history's length |
| App.Consistency | App.tsx:79 | the statistic is always within 0..100 and is 0 for an empty history; ConsistencyMeaning adds the rounding and the all-completed case |
| App.ConsistencyMeaning | App.tsx:79 | the statistic lies in 0..100; it is 0 for an empty history and 100 when every session was completed; otherwise it is the nearest whole percentage of completed sessions |
| App.CountIgnoresOrder | App.tsx:232 | histories with the same entries have the same number of completed entries, whatever the order |
| App.ConsistencyIgnoresOrder | App.tsx:232 | histories with the same entries have the same statistic, whatever the order |
| App.CompletedNeverLowers | App.tsx:231-232 | recording a completed session never lowers the statistic |
| App.TwoOfThree | App.tsx:232 | two completed sessions out of three give 67 |
| App.Reconcile | App.tsx:92-113 | signed in with a mismatched profile or orphaned data: the empty state, and a fetch for the user; otherwise the state is kept and a fetch is requested exactly when history is empty; signed out: the empty state if anything personal is held, else unchanged |
| App.ReconciledStateBelongsToUser | App.tsx:92-113 | afterwards no profile of another owner and no orphaned data remain, and nothing personal remains once signed out |
| App.ReconcileSettles | App.tsx:99-106 | running the check again for the same identity changes nothing more |
| App.OnboardingProfileIsReset | App.tsx:94 | a profile without an owner, such as onboarding builds, is thrown away at the next sign-in check (ignoring the left-out profile-sync effect, which may replace that profile first) |
| App.MapRow | App.tsx:70-76 | a row keeps its date, status, difficulty and feedback; its workout is the stored details when truthy, else the "Past Workout" placeholder, so it is always truthy |
| App.MapRows | App.tsx:70 | one entry per row, in order |
| App.SavedRow | App.tsx:219-227 | the row inserted for a finished session, with no contract of its own: date, status and difficulty, the feedback with the plan's title appended after a "Workout:" marker, and no workout details; SavedSessionReloadsAsPastWorkout states what reloading it gives |
| App.WithFetchedHistory | App.tsx:81-88 | a query error leaves the state unchanged; rows (none when null) replace history and consistency only, every other field unchanged |
| App.Finished | App.tsx:206-239 | no plan: unchanged; otherwise the entry holding the plan is in front of the old history, the plan is cleared, consistency is recomputed on the new history, and nothing else changes |
| App.FinishRecordsPlan | App.tsx:209-232 | the recorded entry's title is the plan's, and a completed session keeps the statistic at least at the old history's value |
| App.SavedSessionReloadsAsPastWorkout | App.tsx:219-227 | the row inserted for a finished session reloads with the placeholder workout and the title suffix in its feedback; date, status and difficulty survive |
| App.Onboarded | App.tsx:188-195 | profile and plan set, phase from the plan, consistency 0, weight from the profile's initial weight; history, fatigue and loading flag kept |
| App.OnboardingPrompt | App.tsx:160 | the strategy request of `handleOnboardingComplete`, with no contract of its own; OnboardingPromptFrame states its opening and closing |
| App.PlanOutcome | App.tsx:287-293 | the agent call for a prompt followed by the structured read of its text, with no contract of its own; PlanOutcomeStages and ForgeAndRead state it |
| App.PlanOutcomeStages | App.tsx:287-293 | a rejected agent call is the outcome and the structured read is skipped; a plan is the structured read of the call's text, with truthy title, phase and fatigue |
| App.ForgeAndRead | App.tsx:287-293 | the method awaiting the two calls in turn returns exactly PlanOutcome |
| App.OnboardingOutcome | App.tsx:158-165 | what `handleOnboardingComplete` awaits, with no contract of its own: PlanOutcome of the strategy request with an empty history and the held context; OnboardingRequest and App.Store.CompleteOnboarding state it |
| App.OnboardingRequest | App.tsx:158-163 | the request sent at onboarding starts with the system prompt, shows "None" for the history and ends with the strategy request |
| App.OnboardingReadsContextOnly | App.tsx:158-163 | two states with the same phase, consistency and fatigue give the same onboarding outcome: nothing else of the held state reaches the agent |
| App.OnboardingPromptFrame | App.tsx:160 | the onboarding request opens with "Start my journey. Goal: " and the goal, and closes with the unit and ". Create a long-term strategy." |
| App.NextWorkoutPrompt | App.tsx:274-285 | it fails exactly when there is a last session whose workout is null or undefined; NextWorkoutPromptText states the text |
| App.NextWorkoutPromptText | App.tsx:275-285 | the prompt opens with "Current weight: ", the weight, the phase and the consistency percentage; it then carries the user's quoted request with the instruction to follow it strictly, or the standing instruction when the request is empty; with a last session it ends with " Last session was <title> (<status>).", and without one it ends with the request sentence |
| App.NextWorkoutPromptFailsOnlyOnNull | App.tsx:283-284 | a null last workout rejects with a type error before the agent is asked; a history of truthy workouts always yields a prompt |
| App.NextWorkoutOutcome | App.tsx:273-295 | what `requestNextWorkout` awaits, with no contract of its own: the prompt, the agent call and the structured read, the first rejection winning; stated by NextWorkoutPromptFailsOnlyOnNull and App.Store.RequestNextWorkout |
| App.WithNextPlan | App.tsx:296-301 | the plan replaces the current one; phase and fatigue take the plan's values when truthy and keep the old ones otherwise; every other field unchanged |
| App.DeliveredPlansAreDefaulted | App.tsx:299-300 | a plan from the structured read always has truthy phase and fatigue, so it always replaces the global ones |
| App.Store.constructor | App.tsx:18-39 | the state is the restored one when there is one, else the empty state |
| App.Store.OnAuthChange | App.tsx:92-113 | the new state and the requested fetch are those of `Reconcile` |
| App.Store.ApplyFetchedHistory | App.tsx:64-89 | the new state is `WithFetchedHistory` of the old |
| App.Store.FinishWorkout | App.tsx:206-241 | the new state is `Finished` of the old; a row is inserted exactly when a plan is on screen and a user is signed in |
| App.Store.UpdateWeight | App.tsx:243-244 | only the weight changes |
| App.Store.CompleteOnboarding | App.tsx:157-203 | on success the new state is `Onboarded` with the delivered plan; on any rejection the state is unchanged |
| App.Store.RequestNextWorkout | App.tsx:269-309 | nothing without a profile; otherwise the outcome is the prompt, the agent call and the structured read in turn, applied by `WithNextPlan` on success and leaving the state unchanged on any rejection |
| ListToggle.Without | components/WorkoutView.tsx:26 | the filter keeps exactly the other elements, and is shorter when the element was present |
| ListToggle.Toggled | components/WorkoutView.tsx:24-28 | an absent name is appended at the end; a present one is removed with all its occurrences; membership flips |
| ListToggle.WithoutNoDup | components/WorkoutView.tsx:26 | filtering keeps a duplicate-free list duplicate-free |
| ListToggle.ToggleKeepsNoDup | components/WorkoutView.tsx:24-28 | toggling keeps a duplicate-free list duplicate-free |
| ListToggle.ToggleTwiceAbsent | components/WorkoutView.tsx:24-28 | toggling an absent name twice gives back the list |
| ListToggle.ToggleTwicePresent | components/WorkoutView.tsx:24-28 | toggling a present name twice gives back the same members, the name moved to the end |
| ListToggle.NoDupWithinIsShorter | components/WorkoutView.tsx:21-22 | a duplicate-free list drawn from another is no longer than it |
| WorkoutView.ExerciseNames | components/WorkoutView.tsx:139-141 | one name per row of the three sections, so as many as `totalPossible` |
| WorkoutView.ProgressPercent | components/WorkoutView.tsx:22 | `progress` is 0 when there is nothing to tick and at most 100 while no more is ticked than there is; ProgressMeaning adds the rounding |
| WorkoutView.ProgressMeaning | components/WorkoutView.tsx:21-22 | `progress` is the nearest whole percentage of rows done, at most 100 while no more is done than there is, 100 when all is done and 0 when nothing is |
| WorkoutView.SkipReasonText | components/WorkoutView.tsx:37-40 | with a quick reason: "[LABEL] " and the typed text or "No detailed notes."; without one: the typed text or "No reason provided." |
| WorkoutView.TrimEmptyIffBlank | components/WorkoutView.tsx:44 | the trimmed text is empty exactly when every character is whitespace |
| WorkoutView.SkipDisabled | components/WorkoutView.tsx:44 | the abort button's disabled test, with no contract of its own; SkipEnabledIff states both directions |
| WorkoutView.SkipEnabledIff | components/WorkoutView.tsx:44 | abort is enabled exactly when a quick reason is chosen or a visible character is typed |
| WorkoutView.Checklist.constructor | components/WorkoutView.tsx:12-17 | nothing ticked, empty texts, no quick reason, difficulty 5 |
| WorkoutView.Checklist.ProgressAtMost100 | components/WorkoutView.tsx:21-22 | the shown percentage never passes 100 |
| WorkoutView.Checklist.Toggle | components/WorkoutView.tsx:24-28 | the checklist becomes the toggled list; the name's membership flips; the checklist stays duplicate-free and within the shown rows |
| WorkoutView.Checklist.SetDifficulty | components/WorkoutView.tsx:84 | the slider sets the difficulty within 1..10 |
| WorkoutView.Checklist.SetFeedback | components/WorkoutView.tsx:88 | the feedback text is replaced |
| WorkoutView.Checklist.SetSkipReason | components/WorkoutView.tsx:65 | the abort text is replaced |
| WorkoutView.Checklist.SelectQuickReason | components/WorkoutView.tsx:59 | the chosen quick reason is recorded |
| WorkoutView.Checklist.ConfirmSkip | components/WorkoutView.tsx:37-42 | the session is reported skipped with the reason text and difficulty 0, outside the declared 1..10 |
| WorkoutView.Checklist.ConfirmComplete | components/WorkoutView.tsx:93 | the session is reported completed with the typed feedback and a difficulty within 1..10 |
| Onboarding.EquipmentValuesDistinct | components/Onboarding.tsx:87 | different equipment cards record different values |
| Onboarding.Wizard.constructor | components/Onboarding.tsx:10-20 | step 1 and the initial profile: empty goal, no equipment, beginner, empty texts, weights 0, kg |
| Onboarding.Wizard.ChooseGoal | components/Onboarding.tsx:70 | the goal becomes the card's full text and the step advances by one |
| Onboarding.Wizard.ToggleEquipment | components/Onboarding.tsx:86-95 | the equipment list becomes the toggled list of the card's full id, or its id when it has none, still duplicate-free card values; nothing else changes |
| Onboarding.Wizard.Continue | components/Onboarding.tsx:190-191 | enabled only with some equipment; the step advances by one |
| Onboarding.ContinueDisabled | components/Onboarding.tsx:191 | the Continue button's disabled test (no equipment chosen), with no contract of its own; it is the enabling precondition of Onboarding.Wizard.Continue |
| Onboarding.Wizard.ChooseLevel | components/Onboarding.tsx:112 | the level is set and the step advances by one |
| Onboarding.Wizard.SetInitialWeight | components/Onboarding.tsx:140 | only the initial weight changes |
| Onboarding.Wizard.SetTargetWeight | components/Onboarding.tsx:152 | only the target weight changes |
| Onboarding.Wizard.SetUnit | components/Onboarding.tsx:163 | only the unit changes |
| Onboarding.Wizard.SetAvailability | components/Onboarding.tsx:179 | only the availability changes |
| Onboarding.GenerateDisabled | components/Onboarding.tsx:201 | the final button's disabled test (either weight is 0), with no contract of its own; it is the enabling precondition of Onboarding.Wizard.Generate |
| Onboarding.Wizard.Generate | components/Onboarding.tsx:199-201 | the profile handed on has a goal from the cards, at least one distinct piece of equipment, non-zero weights, empty limitations and no owner |
| Dashboard.Points | components/Dashboard.tsx:18-21 | one point per session, labelled S1, S2, … and valued at its difficulty |
| Dashboard.ChartData | components/Dashboard.tsx:17-22 | one point for an empty history, else min(10, n) points, the rightmost carrying the newest session's difficulty; ChartShape adds the labels and the order |
| Dashboard.ChartShape | components/Dashboard.tsx:17-22 | the single point S0 at 0 for no history; otherwise min(10, n) points of the newest ten sessions, oldest on the left and the newest last |
| Dashboard.SessionsOn | components/Dashboard.tsx:33 | exactly the sessions whose date starts with the day key |
| Dashboard.CellAt | components/Dashboard.tsx:30-34 | one square of the grid, with no contract of its own; CellRule states when it is active and what it carries |
| Dashboard.Cells | components/Dashboard.tsx:29-37 | n squares, square i built by the day rule |
| Dashboard.CalendarDays | components/Dashboard.tsx:29 | the grid as written has 35 squares |
| Dashboard.FullCalendarDays | components/Dashboard.tsx:29 | the corrected grid has 42 squares |
| Dashboard.CellRule | components/Dashboard.tsx:29-37 | a square is active exactly when `i - firstDay + 1` lies in the month, carrying that day and its sessions; an inactive square has neither |
| Dashboard.ActiveCountFormula | components/Dashboard.tsx:29-31 | the number of active squares is min(daysInMonth, n - firstDay) |
| Dashboard.DaysRunConsecutively | components/Dashboard.tsx:30-34 | day 1 sits at square `firstDay`, and neighbouring active squares carry consecutive days |
| Dashboard.DayShownIff | components/Dashboard.tsx:29-31 | as written, day d gets a square exactly when `firstDay + d <= 35` |
| Dashboard.CalendarDropsMonthEnd | components/Dashboard.tsx:29-37 | a 31-day month starting on a Saturday shows neither its 30th nor its 31st, and only 29 active squares |
| Dashboard.FullCalendarShowsEveryDay | components/Dashboard.tsx:29-37 | with 42 squares every day of any month sits at square `firstDay + d - 1`, and the active count is the month's length |
| Dashboard.ReasoningPreview | components/Dashboard.tsx:153 | a string over 150 characters becomes its first 150 plus "..."; a shorter non-empty one is shown as is; a falsy one gives the fallback; it throws exactly on a long non-string |
| Dashboard.SessionLabel | components/Dashboard.tsx:280 | the first ten characters of the title, or of "Workout" when it is falsy, then "..."; it throws exactly on a truthy non-string title |
| Dashboard.FinishedSessionLabel | components/Dashboard.tsx:280 | a session finished from a plan is labelled by the plan's title |
| HistoryView.DateKey | components/HistoryView.tsx:16-19 | the instant the date denotes, or `now` when it cannot be read |
| HistoryView.InsertPermutes | components/HistoryView.tsx:23 | inserting adds exactly the one entry |
| HistoryView.InsertKeepsSorted | components/HistoryView.tsx:23-27 | inserting into a sorted list keeps it sorted |
| HistoryView.Sort | components/HistoryView.tsx:23-27 | the result is a permutation of the input, ordered by the comparator's key |
| HistoryView.SortedHistory | components/HistoryView.tsx:21-28 | a missing history gives `[]`; otherwise the same entries (multiset and length), newest first for `latest` and oldest first for `oldest`; the input is a value and is not touched |
| HistoryView.LatestFirstIsNewest | components/HistoryView.tsx:26 | the first newest-first entry is dated no earlier than any entry |
| HistoryView.UnreadableDateRanksAsNow | components/HistoryView.tsx:16-19 | an unreadable date ranks as the present instant in both orders |
| Supabase.PaginationParams | server/config/supabase.js:47-50 | `from = (page - 1) * limit` and the range holds `limit` indices, with the defaults for omitted arguments |
| Supabase.DefaultsAreFirstTen | server/config/supabase.js:47 | no arguments give rows 0 to 9 |
| Supabase.PageSize | server/config/supabase.js:48-50 | a positive limit spans exactly `limit` rows, and page 1 starts at row 0 |
| Supabase.PagesAdjacent | server/config/supabase.js:48-49 | each page starts right after the previous one ends |
| Supabase.RowOnOnePage | server/config/supabase.js:48-49 | row n lies on page `n / limit + 1` and on no other |
| Supabase.HandleSupabaseError | server/config/supabase.js:34-44 | null for a falsy error; otherwise `success` false, the message or 'Database operation failed', and the error's code |
| Supabase.StringErrorReply | server/config/supabase.js:39-40 | a plain string thrown as an error reports the fixed text and an undefined code |
| JsValue.StringifyHasNoNewline | geminiService.ts:30-39 | `JSON.stringify` never writes a raw line break |
| Text.RemoveFenceLeavesNone | geminiService.ts:149 | removing every "```" leaves none behind |

## Left out

- Network and persistence. The database queries, the inserts other than the history row, the profile update and upsert, the authentication session, and the endpoint behind `agent` are not modelled. Their results come in as arguments; the values they write are only computed. `server/routes/*` and `server/index.js` are not part of this model.
- The profile-sync effect (App.tsx:126-138), which copies the authentication layer's profile into the state; the layer's profile shape is not part of this model.
- Browser storage: restoring the state (App.tsx:18-39) is the argument of `App.Store.constructor`; saving it, and the theme, are left out.
- React scheduling: effects, `useMemo`, stale closures, the processing flags, `setAgentRawText`, alerts and view navigation. Each handler is one atomic transition on one state, and two plan requests in flight at once are not modelled.
- Floating point. Weights are integers; the weight-progress bar and the `toFixed` deltas (components/Dashboard.tsx:39-46) are left out. `Number` of a field text is taken as an integer argument.
- App.Consistency: the statistic is exact integer round-half-up; floating-point error in the source's `c / n * 100` near a half is not modelled.
- The engine's own error texts (`SyntaxError`, `TypeError`, and the text of a rejected `fetch`) are a parameter of `PlanParser.FailureMessage`.
- Dates and clocks. `new Date()`, days-in-month and first weekday are arguments. The calendar's ISO day key, including its time-zone shift, is the `dayKey` argument. The sort's fallback instant is one `now` per sort, while the source calls `new Date()` once per comparison.
- HistoryView.Sort: the contract states the order and the permutation, not that entries of equal date keep their input order.
- Strings are sequences of code points, not UTF-16 units, so `length`, `substring` and the 150-, 10- and 7-entry limits count characters.
- `ListToggle.Toggled` compares names by value; `includes` and `filter` on objects compare by identity.
- Dashboard.LongerThan150: an object's `length` member counts only when it is a number; a numeric string there is not converted.
- Rendering: null rows in the views, icons and markup.
- WorkoutView.Checklist.Toggle: requires the name to be one of the rows on screen, which is where the source calls it from.
- App.MapRow: the `status` column is read as one of the three declared statuses; a row holding any other text, which the loader would copy as it is (App.tsx:72), is not modelled.
- The regular expression `\d+` is the first maximal digit run, and `\{[\s\S]*\}` is the first `{` to the last `}`.

Where the evident intent of the code (its prompts, comments and names) and what it does differ, the model follows what it does:

- A second normalisation of a normalised list is not the identity (`Normalize.RenormalizingRewritesNotes`).
- A string item named "" still yields a record.
- The final rejection of `getStructuredWorkout` carries the remote stage's error, not the local one.
- A block without movements disappears from the normalised list (`Normalize.EmptyBlockIsDropped`).
- The local slice swaps its bounds when the last `}` precedes the first `{` (`PlanParser.ReversedBracesExample`).
- A session saved to the database comes back as "Past Workout" with the title in its feedback (`App.SavedSessionReloadsAsPastWorkout`).

## Findings

| source | as written | input that shows it | evidently intended | confidence | as-written member | corrected member |
|---|---|---|---|---|---|---|
| components/Dashboard.tsx:29-37 | the month grid has 35 squares, so days with `firstDay + d > 35` get none | a 31-day month starting on a Saturday (firstDay 6, March 2025): the 30th and 31st are missing | every day of the month has a square: six weeks, 42 squares | not executed | Dashboard.CalendarDropsMonthEnd | Dashboard.FullCalendarShowsEveryDay |
