# Viral Content Wizard — a verified model of its core

The Viral Content Wizard is a Next.js application that walks a creator through five
steps for one short-form video: content idea, hook, structure, captions and
performance. Projects live in a Redux store and are saved to the browser's
localStorage. The AI features are served by routes that return mock answers.

This Dafny project models the logic behind that flow:

- **Store.** The two Redux project slices (`src/store/projectsSlice.ts` and
  `src/store/slices/projectsSlice.ts`) are classes whose reducers are methods. They
  work over a `LocalStorage` class that stands for `localStorage` and for the
  service of `src/lib/localStorageService.ts`. The proofs show four things:
  - each reducer changes exactly what the source changes;
  - the current project agrees with the first list entry that has its id:
    `setCurrentProject`, `saveContentIdea` and `saveHook` keep this, and
    `createProject` establishes it when the clock gives a new id. The second
    slice's `initializeProjects` replaces the list without looking at the current
    project, so after it the two need not agree;
  - after every save the stored list reads back as the in-memory list;
  - the two storage keys never interfere.
- **Wizard screens.** Navigation over the five steps, the wizard layout's
  `currentStep` transitions, the progress bars and the score ring are pure
  functions. The layout's state is a small class. Bounds, monotonicity and
  "exactly one highlighted" properties are proved.
- **Step controllers.** The content-structure, hook-generator and content-idea
  steps and the dashboard's create form are classes over their React state.
  - Asynchronous handlers are split into a begin method and a complete method:
    the code before the `await` or `setTimeout`, and the code after it.
  - The required-field gates, the loading/error bookkeeping, the one-segment
    duration update, the mock tables and the save payloads are all specified.
- **API routes.** The analyze-performance, generate-captions and generate-hooks
  routes are pure functions from an optional request body to a response. The
  response is a result, a 400 "Missing required fields", or a 500 when the body
  cannot be parsed or is `null`.

Modules:

- Shared: `Wrappers` (Option, Result), `Http` (responses), `Js` (the JavaScript
  built-ins used: truthiness, `trim`, `join`, `split(',')[0]`, `findIndex`/`find`,
  decimal `toString`, `includes`).
- Store: `LocalStorageService`, `ProjectsSlice`, `SlicesProjectsSlice`.
- Wizard screens: `WizardNavigation`, `WizardLayout`, `WizardProgressBar`,
  `ScoreVisualization`.
- Step controllers: `ContentStructureStep`, `HookGeneratorStep`, `ContentIdeaStep`,
  `Dashboard`.
- API routes: `AnalyzePerformance`, `GenerateCaptions`, `GenerateHooks`.

## Model

| member | source | states |
|---|---|---|
| Js.OrElse | src/components/wizard/steps/ContentStructureStep.tsx:24 | `a \|\| b` on an optional string: `a` when it is present and non-empty, else `b` |
| Js.TrimStart | src/app/dashboard/page.tsx:16 | the result is the suffix left after a run of whitespace, and it starts with non-whitespace |
| Js.TrimEnd | src/app/dashboard/page.tsx:16 | the result is the prefix left before a run of whitespace, and it ends with non-whitespace |
| Js.TrimEmptyIff | src/app/dashboard/page.tsx:16 | `s.trim()` is empty if and only if every character of `s` is whitespace |
| Js.TrimKeepsNonWhitespace | src/app/dashboard/page.tsx:61 | a title with any non-whitespace character does not trim to empty |
| Js.ContainsAtWrap | src/app/api/ai/generate-captions/route.ts:23-27 | an occurrence at `k` becomes an occurrence at `\|p\|+k` once text is put around the string |
| Js.ContainsWrap | src/app/api/ai/generate-captions/route.ts:23-27 | containment survives putting text around the string |
| Js.JoinContains | src/app/api/ai/generate-captions/route.ts:23-27 | every element of an array occurs in its join, whatever the separator |
| Js.FirstField | src/app/api/ai/generate-hooks/route.ts:29 | `s.split(',')[0]` is a comma-free prefix of `s` that ends at the first comma or at the end |
| Js.FirstFieldNoComma | src/app/api/ai/generate-hooks/route.ts:29 | without a comma, `split(',')[0]` is the whole string |
| Js.FindIndex | src/store/projectsSlice.ts:123 | the first index whose element satisfies the predicate; -1 if and only if none does |
| Js.Find | src/store/projectsSlice.ts:94 | `find` is absent exactly when `findIndex` is -1, and otherwise is the element at that index |
| Js.IndexOfKey | src/store/projectsSlice.ts:123 | `findIndex` by id, used by both slices: the first position with that id, or -1 if and only if no entry has it |
| Js.FindByKey | src/store/slices/projectsSlice.ts:78 | `find` by id: the entry at `IndexOfKey`, or none exactly when the id is absent |
| Js.IndexOfKeyAfterReplace | src/store/projectsSlice.ts:123-126 | replacing the first entry with an id by a record with that id keeps it first, as both `saveContentIdea` reducers do |
| Js.IndexOfKeyAfterAppend | src/store/slices/projectsSlice.ts:70-71 | appending a record whose id is new makes it the first entry with that id, as both `createProject` reducers do |
| Js.Digit | src/store/projectsSlice.ts:81 | the digit character whose value is `d` |
| Js.DecimalString | src/store/projectsSlice.ts:81 | `Date.now().toString()`: non-empty, digits only, no leading zero, one digit exactly below 10, and the digits denote `n` |
| Js.DecimalStringInjective | src/store/projectsSlice.ts:81 | two clock readings give the same id if and only if they are equal |
| LocalStorageService.LocalStorage.constructor | src/lib/localStorageService.ts:3 | the storage starts with the given window flag and contents |
| LocalStorageService.LocalStorage.GetItem | src/lib/localStorageService.ts:10 | `getItem` is null exactly for a key never written, else the stored value |
| LocalStorageService.LocalStorage.SetItem | src/lib/localStorageService.ts:4 | `setItem` writes its key and leaves every other key as it was |
| LocalStorageService.LocalStorage.SaveProjects | src/lib/localStorageService.ts:2-6 | without a window nothing is written; otherwise only "vcw_projects" changes, `loadProjects` then returns the saved list, and the current-project key is untouched |
| LocalStorageService.LocalStorage.LoadProjects | src/lib/localStorageService.ts:8-14 | returns `[]` without a window, for an absent key and for ""; returns the stored list; fails exactly on other stored text, because parse errors are not caught |
| LocalStorageService.LocalStorage.LoadProjectsOrEmpty | src/store/projectsSlice.ts:56-63 | the catch wrapper: the loaded list, or `[]` when loading fails |
| LocalStorageService.LocalStorage.SaveCurrentProject | src/lib/localStorageService.ts:16-20 | without a window nothing is written; otherwise `loadCurrentProject` returns the id and the projects list is untouched |
| LocalStorageService.LocalStorage.LoadCurrentProject | src/lib/localStorageService.ts:22-27 | null without a window or when the key was never written, else the stored value |
| LocalStorageService.KeysDistinct | src/lib/localStorageService.ts:4-18 | the two keys differ, so each save leaves the other key alone |
| ProjectsSlice.WithContentIdea | src/store/projectsSlice.ts:109-121 | the new content idea takes its title from the project and its other fields from the payload; the project's hook, id, title and createdAt are kept |
| ProjectsSlice.WithHook | src/store/projectsSlice.ts:141-153 | the hook points at the project's content-idea id, or "" when there is none; the content idea is kept |
| ProjectsSlice.ProjectsState.constructor | src/store/projectsSlice.ts:56-71 | the initial state holds the loaded list (`[]` on a parse failure), no current project, is not loading and has no error |
| ProjectsSlice.ProjectsState.CreateProject | src/store/projectsSlice.ts:79-91 | appends exactly one project with the title and no idea or hook, makes it current, keeps earlier entries and the flags, and persists the list; under a new id the current project agrees with the list |
| ProjectsSlice.ProjectsState.SetCurrentProject | src/store/projectsSlice.ts:93-98 | the first project with that id becomes current; an unknown id changes nothing; the list is never touched; agreement is kept |
| ProjectsSlice.ProjectsState.SaveContentIdea | src/store/projectsSlice.ts:101-131 | a no-op without a current project or when its id is missing; otherwise replaces only the first entry with that id, makes the updated project current, persists, and keeps agreement |
| ProjectsSlice.ProjectsState.SaveHook | src/store/projectsSlice.ts:134-163 | the same shape as `saveContentIdea`, attaching the hook record |
| ProjectsSlice.ProjectsState.SetLoading | src/store/projectsSlice.ts:166-168 | changes the loading flag only |
| ProjectsSlice.ProjectsState.SetError | src/store/projectsSlice.ts:170-172 | changes the error message only |
| SlicesProjectsSlice.WithContentIdea | src/store/slices/projectsSlice.ts:92-96 | the payload is stored verbatim and `updatedAt` is refreshed; id, title and createdAt are kept |
| SlicesProjectsSlice.ProjectsState.constructor | src/store/slices/projectsSlice.ts:45-50 | an empty list, no current project, not loading, no error |
| SlicesProjectsSlice.ProjectsState.InitializeProjects | src/store/slices/projectsSlice.ts:58-60 | replaces only the list, with the stored list, or with `[]` without a window, for an absent key or when parsing throws |
| SlicesProjectsSlice.ProjectsState.CreateProject | src/store/slices/projectsSlice.ts:63-75 | appends one project with the title, makes it current and persists the list |
| SlicesProjectsSlice.ProjectsState.SetCurrentProject | src/store/slices/projectsSlice.ts:77-82 | selects the first matching project; an unknown id leaves the current project unchanged |
| SlicesProjectsSlice.ProjectsState.SaveContentIdea | src/store/slices/projectsSlice.ts:84-106 | a no-op without a current project or when its id is missing; otherwise only that entry is replaced, then it becomes current and the list is persisted |
| SlicesProjectsSlice.ProjectsState.SetLoading | src/store/slices/projectsSlice.ts:109-111 | changes the loading flag only |
| SlicesProjectsSlice.ProjectsState.SetError | src/store/slices/projectsSlice.ts:113-115 | changes the error message only |
| WizardNavigation.IndexOf | src/components/wizard/WizardNavigation.tsx:8-11 | `STEPS.indexOf` is the unique position of the step in idea, hook, structure, captions, performance |
| WizardNavigation.HandlePrevious | src/components/wizard/WizardNavigation.tsx:13-17 | at position i > 0 emits the step at i-1; at 0 emits nothing |
| WizardNavigation.HandleNext | src/components/wizard/WizardNavigation.tsx:19-23 | at position i < 4 emits the step at i+1; at 4 emits nothing |
| WizardNavigation.DisabledIffNoStep | src/components/wizard/WizardNavigation.tsx:29-37 | each button is disabled if and only if its handler would emit nothing |
| WizardNavigation.PreviousUndoesNext | src/components/wizard/WizardNavigation.tsx:13-23 | Previous after a Next that moved returns to the start, and the other way round |
| WizardNavigation.StepsDistinct | src/components/wizard/WizardNavigation.tsx:8 | the five steps and their names are pairwise distinct |
| WizardNavigation.CountTrue | src/components/wizard/WizardProgressBar.tsx:27-41 | a count of true flags, never more than their number |
| WizardNavigation.CountTrueSingle | src/components/wizard/WizardProgressBar.tsx:32 | a single true flag counts one |
| WizardNavigation.CountTrueNone | src/components/wizard/WizardProgressBar.tsx:31 | no true flag counts zero |
| WizardNavigation.CountTruePrefix | src/components/wizard/WizardProgressBar.tsx:31 | flags true exactly on the first k positions count k |
| WizardLayout.ForwardTarget | src/components/wizard/WizardLayout.tsx:15-75 | the forward transitions are idea→hook→structure→captions→performance and none from performance; they equal `HandleNext` |
| WizardLayout.BackTarget | src/components/wizard/WizardLayout.tsx:19-100 | the back transitions mirror the forward ones, none from idea; they equal `HandlePrevious` |
| WizardLayout.ProgressWidth | src/components/wizard/WizardLayout.tsx:124-130 | the width is 20·(position+1) percent, between 20 and 100 |
| WizardLayout.ProgressWidthIncreases | src/components/wizard/WizardLayout.tsx:124-130 | the width grows strictly along the wizard order |
| WizardLayout.Highlights | src/components/wizard/WizardLayout.tsx:134-138 | label i is highlighted if and only if it is the current step's |
| WizardLayout.OneLabelHighlighted | src/components/wizard/WizardLayout.tsx:134-138 | exactly one label is highlighted |
| WizardLayout.Wizard.constructor | src/components/wizard/WizardLayout.tsx:10 | the wizard starts at the idea step |
| WizardLayout.Wizard.Forward | src/components/wizard/WizardLayout.tsx:15-75 | moves one step on, or stays on performance; the position changes by +1 or not at all |
| WizardLayout.Wizard.Back | src/components/wizard/WizardLayout.tsx:19-100 | moves one step back, or stays on idea; the position changes by -1 or not at all |
| WizardProgressBar.SameOrderAsNavigation | src/components/wizard/WizardProgressBar.tsx:7-13 | the bar lists the steps in the navigation's order |
| WizardProgressBar.CurrentIndex | src/components/wizard/WizardProgressBar.tsx:16 | `findIndex` gives the step's position, within 0..4 |
| WizardProgressBar.FillWidth | src/components/wizard/WizardProgressBar.tsx:24 | the fill is 25·position percent: 0, 25, 50, 75 or 100 |
| WizardProgressBar.Indicators | src/components/wizard/WizardProgressBar.tsx:27-41 | indicator i shows i+1 and its label; it is completed if and only if i ≤ position, and active if and only if i = position |
| WizardProgressBar.CompletedCount | src/components/wizard/WizardProgressBar.tsx:31 | position+1 indicators are completed |
| WizardProgressBar.OneActive | src/components/wizard/WizardProgressBar.tsx:32 | exactly one indicator is active, the current one |
| ScoreVisualization.GetColor | src/components/wizard/ScoreVisualization.tsx:7-11 | green if and only if score ≥ 8, yellow if and only if 6 ≤ score < 8, red if and only if score < 6 |
| ScoreVisualization.Label | src/components/wizard/ScoreVisualization.tsx:31 | "Excellent", "Good" or "Needs Improvement", each on exactly its score range |
| ScoreVisualization.ColorMatchesLabel | src/components/wizard/ScoreVisualization.tsx:7-31 | the colour and the label always agree |
| ScoreVisualization.TierMonotone | src/components/wizard/ScoreVisualization.tsx:7-11 | a higher score never gets a lower colour tier |
| ScoreVisualization.GradientPercent | src/components/wizard/ScoreVisualization.tsx:17 | the ring fill is within 0..100 percent exactly for scores within 0..10 |
| ContentStructureStep.WithDuration | src/components/wizard/steps/ContentStructureStep.tsx:37-41 | the same length; each segment with that id gets the new duration, and the others are unchanged |
| ContentStructureStep.WithDurationKeepsShape | src/components/wizard/steps/ContentStructureStep.tsx:37-41 | ids, names, colours and order are kept; only the matching durations change |
| ContentStructureStep.WithDurationUnknownId | src/components/wizard/steps/ContentStructureStep.tsx:38-40 | an id no segment has leaves the segments unchanged |
| ContentStructureStep.BarWidth | src/components/wizard/steps/ContentStructureStep.tsx:181-190 | within the slider's 1..20 the bar width is within 5..100 percent |
| ContentStructureStep.InitialHook | src/components/wizard/steps/ContentStructureStep.tsx:24 | the saved structure's hook, else the project's selected hook, else "" |
| ContentStructureStep.InitialText | src/components/wizard/steps/ContentStructureStep.tsx:25-27 | the saved field, else "" |
| ContentStructureStep.InitialAnalysis | src/components/wizard/steps/ContentStructureStep.tsx:28 | the saved analysis when it is truthy, else none |
| ContentStructureStep.StructureStep.constructor | src/components/wizard/steps/ContentStructureStep.tsx:24-35 | the fields take their initial values and the segments are hook 3, middle 12 and ending 5 |
| ContentStructureStep.StructureStep.SetHook | src/components/wizard/steps/ContentStructureStep.tsx:107 | sets the hook text |
| ContentStructureStep.StructureStep.SetMiddle | src/components/wizard/steps/ContentStructureStep.tsx:124 | sets the middle text |
| ContentStructureStep.StructureStep.SetEnding | src/components/wizard/steps/ContentStructureStep.tsx:141 | sets the ending text |
| ContentStructureStep.StructureStep.SetContentType | src/components/wizard/steps/ContentStructureStep.tsx:158 | sets the content type |
| ContentStructureStep.StructureStep.HandleDurationChange | src/components/wizard/steps/ContentStructureStep.tsx:37-41 | the segments become `WithDuration` of the old ones |
| ContentStructureStep.StructureStep.BeginAnalyze | src/components/wizard/steps/ContentStructureStep.tsx:43-60 | a request is sent if and only if all four fields are non-empty; it carries exactly them and sets loading; otherwise nothing changes |
| ContentStructureStep.StructureStep.CompleteAnalyze | src/components/wizard/steps/ContentStructureStep.tsx:62-69 | a response becomes the analysis; a failure sets "Failed to analyze content structure"; loading always ends false |
| ContentStructureStep.StructureStep.SavePayload | src/components/wizard/steps/ContentStructureStep.tsx:72-82 | the payload is exactly the four fields and the analysis |
| HookGeneratorStep.LookupHooks | src/components/wizard/steps/HookGeneratorStep.tsx:130 | the table entry for a type, none exactly for a type the table lacks |
| HookGeneratorStep.HookTypesCovered | src/components/wizard/steps/HookGeneratorStep.tsx:11-17 | every offered hook type has a table entry, so the lookup error cannot follow a UI choice |
| HookGeneratorStep.MockDataEntries | src/components/wizard/steps/HookGeneratorStep.tsx:20-106 | every table entry is one of the five per-type hook lists |
| HookGeneratorStep.MockDataShape | src/components/wizard/steps/HookGeneratorStep.tsx:20-106 | each entry has three hooks rated 9, 8 and 7: strictly descending, within 1..10 |
| HookGeneratorStep.MeterWidth | src/components/wizard/steps/HookGeneratorStep.tsx:207 | the meter is within 0..100 percent for ratings 0..10 |
| HookGeneratorStep.MockMetersInRange | src/components/wizard/steps/HookGeneratorStep.tsx:204-210 | every mock hook's meter is 70..90 percent, and the first hook's is 90 |
| HookGeneratorStep.HookGenerator.constructor | src/components/wizard/steps/HookGeneratorStep.tsx:109-113 | no type, not loading, no hooks, no selection, no error |
| HookGeneratorStep.HookGenerator.SelectHookType | src/components/wizard/steps/HookGeneratorStep.tsx:171 | a card click, which only offers the `HOOK_TYPES` values, sets the hook type |
| HookGeneratorStep.HookGenerator.GenerateHooks | src/components/wizard/steps/HookGeneratorStep.tsx:115-126 | without a type: sets "Please select a hook type first" and does not start loading; with one: clears the error, starts loading and schedules the type |
| HookGeneratorStep.HookGenerator.CompleteGenerate | src/components/wizard/steps/HookGeneratorStep.tsx:128-139 | the table entry becomes the generated hooks, or the "Could not generate hooks…" error is set; loading ends |
| HookGeneratorStep.HookGenerator.SelectHook | src/components/wizard/steps/HookGeneratorStep.tsx:199 | clicking a hook selects its text |
| HookGeneratorStep.HookGenerator.SaveAndContinue | src/components/wizard/steps/HookGeneratorStep.tsx:142-146 | writes the selected hook under "selectedHook" only; the persisted projects are unaffected |
| ContentIdeaStep.MockAnalysisShape | src/components/wizard/steps/ContentIdeaStep.tsx:32-59 | the mock has score 7 with 3 strengths, 3 weaknesses and 3 improvements, and is shown yellow and "Good" |
| ContentIdeaStep.InitialField | src/components/wizard/steps/ContentIdeaStep.tsx:17-19 | the current project's content-idea field, else "" |
| ContentIdeaStep.IdeaStep.constructor | src/components/wizard/steps/ContentIdeaStep.tsx:17-21 | the three fields from the current project, no analysis, not loading |
| ContentIdeaStep.IdeaStep.SetContentIdea | src/components/wizard/steps/ContentIdeaStep.tsx:98 | sets the idea text |
| ContentIdeaStep.IdeaStep.SetTargetAudience | src/components/wizard/steps/ContentIdeaStep.tsx:116 | sets the audience text |
| ContentIdeaStep.IdeaStep.SetContentGoal | src/components/wizard/steps/ContentIdeaStep.tsx:133 | sets the goal text |
| ContentIdeaStep.IdeaStep.BeginAnalyze | src/components/wizard/steps/ContentIdeaStep.tsx:23-26 | starts if and only if all three fields are non-empty, and then sets loading; otherwise nothing changes |
| ContentIdeaStep.IdeaStep.CompleteAnalyze | src/components/wizard/steps/ContentIdeaStep.tsx:61-75 | the analysis becomes the fixed mock and loading ends; nothing else changes and nothing is dispatched |
| Dashboard.ProjectPath | src/app/dashboard/page.tsx:25 | the route is "/dashboard/" followed by the id |
| Dashboard.ProjectPathInjective | src/app/dashboard/page.tsx:25 | two routes are equal if and only if their ids are |
| Dashboard.NavigationTarget | src/app/dashboard/page.tsx:22-27 | none exactly for an empty snapshot, else the route of its last project |
| Dashboard.TargetAfterCreate | src/app/dashboard/page.tsx:22-27 | on the list after the create, the target would be the new project's route |
| Dashboard.StaleTargetMissesNewProject | src/app/dashboard/page.tsx:12-27 | on the pre-dispatch snapshot, the target never is the new project's route unless the previous last id equals the new one |
| Dashboard.StaleTargetExample | src/app/dashboard/page.tsx:22-27 | with project "1" listed, creating at time 2 routes to "/dashboard/1", not to the new "2" |
| Dashboard.DashboardPage.constructor | src/app/dashboard/page.tsx:13 | the title input starts empty |
| Dashboard.DashboardPage.SetNewProjectTitle | src/app/dashboard/page.tsx:56 | sets the title input |
| Dashboard.DashboardPage.HandleCreateProject | src/app/dashboard/page.tsx:15-28 | a blank title changes nothing; otherwise the untrimmed title is created, only the projects key of storage is written (nothing without a window), the input is cleared, and the target comes from the pre-dispatch snapshot |
| Dashboard.DashboardPage.HandleCreateProjectFixed | src/app/dashboard/page.tsx:15-28 | the same, except that the target is always the new current project's route |
| AnalyzePerformance.ComparisonTextInjective | src/app/api/ai/analyze-performance/route.ts:25-28 | the four comparison texts are distinct |
| AnalyzePerformance.GetComparison | src/app/api/ai/analyze-performance/route.ts:24-29 | each bucket is defined by exactly the chain of thresholds 1.5b, b and 0.8b |
| AnalyzePerformance.ComparisonMonotone | src/app/api/ai/analyze-performance/route.ts:24-29 | a higher rate never gets a lower bucket, for any benchmark |
| AnalyzePerformance.ComparisonIntervals | src/app/api/ai/analyze-performance/route.ts:24-29 | for b ≥ 0 the buckets are the intervals [1.5b,∞), [b,1.5b), [0.8b,b) and (−∞,0.8b) |
| AnalyzePerformance.CompareValue | src/app/api/ai/analyze-performance/route.ts:45 | an undefined watch time compares as below average |
| AnalyzePerformance.Rating | src/app/api/ai/analyze-performance/route.ts:33 | "Above Expected" if and only if > 5, "Average" if and only if within 4..5, "Below Expected" if and only if ≤ 3 |
| AnalyzePerformance.RatingAgreesWithComparison | src/app/api/ai/analyze-performance/route.ts:33-37 | the rating never contradicts the engagement comparison |
| AnalyzePerformance.WatchTimeTitle | src/app/api/ai/analyze-performance/route.ts:54 | "Exceptional Watch Time" if and only if watchTime > 70 |
| AnalyzePerformance.SaveRateTitle | src/app/api/ai/analyze-performance/route.ts:58 | "Strong Save Rate" if and only if saveRate > 2 |
| AnalyzePerformance.CommentRateTitle | src/app/api/ai/analyze-performance/route.ts:64 | "Low Comment Engagement" if and only if commentRate < 1 |
| AnalyzePerformance.BuildAnalysis | src/app/api/ai/analyze-performance/route.ts:32-88 | benchmarks 5, 3, 60 and 2; the watch time passes through; 2 strengths, 2 weaknesses, 4 actions, 2 insights; the titles follow their thresholds; the first insight embeds the platform |
| AnalyzePerformance.InsightNamesPlatform | src/app/api/ai/analyze-performance/route.ts:81 | the first insight starts with the platform name |
| AnalyzePerformance.Analyze | src/app/api/ai/analyze-performance/route.ts:3-97 | 500 exactly when the body cannot be read or is `null`; 400 exactly when a required field is falsy; otherwise the report |
| AnalyzePerformance.AnalyzeIgnoresCategoryAndTimeFrame | src/app/api/ai/analyze-performance/route.ts:5-88 | category and time frame are only checked, never used |
| GenerateCaptions.FirstCta | src/app/api/ai/generate-captions/route.ts:19 | comment / follow / fallback call to action of caption 1 |
| GenerateCaptions.SecondCta | src/app/api/ai/generate-captions/route.ts:23 | share / link / fallback call to action of caption 2 |
| GenerateCaptions.ThirdCta | src/app/api/ai/generate-captions/route.ts:27 | comment / follow / fallback call to action of caption 3 |
| GenerateCaptions.CtaFallbacks | src/app/api/ai/generate-captions/route.ts:19-27 | "comment"/"follow" fall back in caption 2, and "share"/"link" fall back in captions 1 and 3 |
| GenerateCaptions.PointText | src/app/api/ai/generate-captions/route.ts:19 | a missing key point prints as "undefined" |
| GenerateCaptions.FirstCaptionUsesTwoPoints | src/app/api/ai/generate-captions/route.ts:19 | caption 1 reads only the first two key points |
| GenerateCaptions.FirstCaptionSinglePoint | src/app/api/ai/generate-captions/route.ts:19 | with one key point, the slot for the second stays empty |
| GenerateCaptions.FirstCaptionHasFirstPoint | src/app/api/ai/generate-captions/route.ts:19 | caption 1 contains the first key point |
| GenerateCaptions.LaterCaptionsListAllPoints | src/app/api/ai/generate-captions/route.ts:23-27 | captions 2 and 3 contain every key point |
| GenerateCaptions.BuildHashtags | src/app/api/ai/generate-captions/route.ts:31-36 | lists of 6, 4, 3 and 4 tags; the first is "#"+niche |
| GenerateCaptions.PrefixedNicheTag | src/app/api/ai/generate-captions/route.ts:32-35 | a "#"-prefixed tag built on the niche starts with '#' and contains the niche |
| GenerateCaptions.HashtagsShape | src/app/api/ai/generate-captions/route.ts:31-36 | every tag starts with '#'; all but the three generic tags contain the niche |
| GenerateCaptions.BuildCaptions | src/app/api/ai/generate-captions/route.ts:16-43 | 3 captions built from the templates, the hashtags, and 4 tips |
| GenerateCaptions.Generate | src/app/api/ai/generate-captions/route.ts:3-53 | 500 exactly when the body cannot be read or is `null`; 400 exactly when a field is falsy; otherwise the caption set |
| GenerateCaptions.EmptyKeyPointsAccepted | src/app/api/ai/generate-captions/route.ts:8-19 | an empty key-point array passes validation |
| GenerateCaptions.StyleIgnored | src/app/api/ai/generate-captions/route.ts:5-43 | the caption style is required but never read |
| GenerateHooks.BuildHooks | src/app/api/ai/generate-hooks/route.ts:16-34 | 3 hooks rated 8, 9 and 7; hooks 1 and 2 embed the full audience, and hook 3 its first comma field |
| GenerateHooks.HookRatings | src/app/api/ai/generate-hooks/route.ts:16-34 | ratings are within 1..10, and the second hook is rated highest |
| GenerateHooks.ThirdHookAudience | src/app/api/ai/generate-hooks/route.ts:29 | hook 3 embeds a comma-free prefix of the audience, the whole audience when it has no comma |
| GenerateHooks.Generate | src/app/api/ai/generate-hooks/route.ts:3-43 | 500 exactly when the body cannot be read or is `null`; 400 exactly when a field is falsy; otherwise the three hooks |
| GenerateHooks.GenerateDependsOnlyOnAudience | src/app/api/ai/generate-hooks/route.ts:16-43 | after validation the output depends on the audience only |

## Left out

- Rendering: JSX markup, CSS classes, tooltips and the static placeholder steps are not modelled.
- Clock and delays:
  - `Date.now()` is a parameter, read once per reducer; the source reads it several times.
  - Id uniqueness is not claimed. Two creates in one millisecond give equal ids, so `CreateProject` promises agreement only under a new id.
  - `setTimeout` and `fetch` are split into begin and complete methods, with no timing, no interleaving and no stale-render effects. The dashboard's stale snapshot is the one exception; see Findings.
- JSON:
  - `JSON.stringify`/`JSON.parse` are modelled as an identity round trip on the stored list.
  - Any other stored non-empty text is a parse failure, even text that would parse.
  - Non-string field values in requests are not modelled: a number where a string is expected, or `keyPoints` given as a string.
- Numbers:
  - The performance rates `Math.round(x / views * 100)` are given integers. Floating point, rounding, and NaN or Infinity for zero views are not modelled.
  - Score and watch-time comparison use exact reals.
- Wiring: the store wiring in `src/store/index.ts` is not modelled. Each slice stands alone. Which slice a component reads is fixed by the data shape it uses.
- The `saveContentStructure` action: `ContentStructureStep.tsx` imports it (line 3), but `src/store/projectsSlice.ts` does not export it (lines 177-184), so the import is `undefined`. The step therefore builds only the payload (as `SavePayload`), and no reducer consumes it. Calling the missing action creator in `handleSaveAndContinue` (line 73) throws a `TypeError`, so `onNext()` (line 81) is never reached: the Continue button of the structure step never advances the wizard. A type-checked build would reject the import. The model does not represent this throw.
- The `catch` of `handleAnalyze` in the content-idea step is not modelled: nothing inside that `try` can throw.
- HookGeneratorStep.LookupHooks: the source indexes a plain object, so a name inherited from `Object.prototype` (such as "constructor") would find a function there; the model treats every name outside the table as missing. The only values that reach the lookup are "" and the `HookTypes` values, which `HookGenerator.SelectHookType` requires.
- HookGeneratorStep.HookGenerator.SaveAndContinue: the call to `localStorage` is unguarded in the source, so it would fail without a window. The model writes regardless of the window flag.
- The existing `contentStructure` record on the current project is a constructor parameter, because the store's `Project` type has no such field.
- Request bodies in the routes: a body that `request.json()` cannot parse, and a JSON `null` body (whose destructuring throws inside the same `try`), are both the `None` body and get the 500 answer. Other exception paths inside the routes (for example a throwing getter) are not modelled.
- Not in the source, so not modelled: neither slice has a delete or a generic update-step reducer, and the analyze-performance route does not check individual metric fields.
- Not part of this model:
  - the LLM client wrappers `src/lib/openai.ts` and `src/lib/openAiService.ts`;
  - the Firebase and auth wrappers;
  - the analyze-idea, analyze-structure, hooks and test routes;
  - the other dashboard pages, the captions and performance step stubs, the tooltip, the middleware, the providers and the layout;
  - `next.config.js`.

## Findings

| source | as written | input that shows it | evidently intended | confidence | as-written member | corrected member |
|---|---|---|---|---|---|---|
| src/app/dashboard/page.tsx:22-27 | the delayed navigation reads `projects` from the render that handled the submit, i.e. the list before `createProject` ran, and goes to its last element | a list holding one project with id "1", then a create at time 2: the navigation goes to "/dashboard/1" instead of the new "/dashboard/2"; from an empty list there is no navigation at all | navigate to the project just created | not executed | Dashboard.StaleTargetMissesNewProject | Dashboard.DashboardPage.HandleCreateProjectFixed |
