# EduSwipe core, modelled in Dafny

EduSwipe walks a user through three steps:

1. A questionnaire builds a user profile (role, experience level, educational setting, challenges).
2. A scenario screen fetches generated scenarios about the future of digital education. The user swipes each card right (hopeful) or left (fearful).
3. A results screen shows how the decisions split and submits them.

This project models the logic beneath the interface:

- `Store` (`store.dfy`) is the session store. It is a class with the fields `step`, `userProfile` and `scenarios` and the four operations. The per-id decision update is the recursive function `WithDecision`, with lemmas about its frame, last-writer-wins, idempotence and commutation.
- `Card` (`scenario_card.dfy`) is the swipe interpreter of one card:
  - the `SwipeCard` class with press, move and release handlers that record the callbacks they make;
  - the pure step function `Next` and event-sequence runner `Run` that specify them;
  - the indicator label and colour.
- `Progression` (`progression.dfy`) holds what the two scenario screens share:
  - the fetch guard;
  - the sample lists;
  - the outcome of a fetch for each kind of reply;
  - the advance from card to card.
- `ScenarioScreen` (`scenario_screen.dfy`) and `LegacyScenarioScreen` (`legacy_scenario_screen.dfy`) model the current screen and the older one kept under `eduswipe/`. The current screen delays each advance behind a timer and a `transitioning` guard; the older one advances at once.
- `Results` (`results_screen.dfy`) holds:
  - the three decision filters;
  - the percentages, written as exact round-half-up integer arithmetic;
  - the undecided warning and the "rated" figure;
  - the `ResultsPanel` class with its submit handler.
- `Questionnaire` (`questionnaire.dfy`) is the form: its defaults, its change handlers, and the submit handler that rejects blank challenges.
- `ScenariosEndpoint` (`scenarios_route.dfy`) is the `POST /api/scenarios` handler as a pure function. Its abstract inputs are the configured key, the request body, what the language model answered and how `JSON.parse` reads it.
- `Types` and `Text` hold:
  - the shared value types;
  - decimal rendering of numbers;
  - the JavaScript `trim` white-space set;
  - substring containment.
- `Flow` (`flow.dfy`) holds a few whole-session consequences:
  - the no-key teacher case;
  - the three-hopeful, two-fearful case;
  - the 101 percent case.

Foreign calls are inputs of the model, never computed by it:

- A `Reply` stands for what `fetch` and `response.json()` gave the screen.
- A `Completion` stands for the chat-completion call.
- A function `parse: string -> Parsed` stands for `JSON.parse`.
- `ok: bool` stands for whether the storage call resolved.

The 800 ms delay of the current screen is an explicit `TimerFires` step.

Some behaviour of the code is easy to assume wrongly, and the model follows the code:

- The code does not pad or truncate the list: the endpoint returns the parsed list with whatever length it has.
- `onComplete` fires right after `onSwipe` on release, with no exit animation in between.
- A scenario's decision can be overwritten by a later swipe for the same id.
- `setUserProfile` moves to the scenarios step even before any scenario exists.
- There are no swipe buttons, and no layered extraction of JSON from a model reply.

## Model

| member | source | states |
|---|---|---|
| Types.RoleName | eduswipe/src/types/index.ts:1 | The four role strings, each non-empty. |
| Types.SettingName | eduswipe/src/types/index.ts:5 | The three setting strings, each non-empty. |
| Types.NamesInjective | eduswipe/src/types/index.ts:1-5 | Different roles have different strings, and so do different settings. |
| Store.SessionStore.constructor | src/store/index.ts:8-10 | The session starts at the questionnaire step with no profile and no scenarios. |
| Store.SessionStore.SetStep | src/store/index.ts:12 | Sets the step; the profile and list are unchanged. |
| Store.SessionStore.SetUserProfile | src/store/index.ts:14-17 | Stores the profile and moves the step to scenarios; the list is unchanged. |
| Store.SessionStore.SetScenarios | src/store/index.ts:19 | Replaces the list wholesale; step and profile are unchanged. |
| Store.SessionStore.UpdateScenarioDecision | src/store/index.ts:21-26 | The new list is `WithDecision` of the old one. Length, ids and texts are kept. Each matching element gets the decision and every other element is untouched. An unknown id leaves the list identical. Step and profile are unchanged. |
| Store.WithDecision | src/store/index.ts:23-25 | The list mapped by id keeps its length. Its ids, texts and pointwise changes are stated by the lemmas below. |
| Store.WithDecisionAt | src/store/index.ts:23-25 | At every position the id and text are kept. A matching scenario gets decision `d`; any other scenario is unchanged. |
| Store.WithDecisionFrame | src/store/index.ts:21-26 | Over the whole list: same length, same ids in the same order, same texts, and only matching elements changed. |
| Store.WithDecisionUnique | src/store/index.ts:23-25 | With distinct ids, updating by the id at position k changes exactly that element's decision, and the ids stay distinct. |
| Store.WithDecisionAbsent | src/store/index.ts:23-25 | An id that appears in no scenario leaves the list identical. |
| Store.WithDecisionLastWins | src/store/index.ts:21-26 | A second update of the same id replaces the first; there is no set-once guard. |
| Store.WithDecisionIdempotent | src/store/index.ts:21-26 | Repeating the same update changes nothing. |
| Store.WithDecisionCommute | src/store/index.ts:21-26 | Updates of two different ids can be applied in either order. |
| Card.IndicatorLabel | src/components/ScenarioCard.tsx:94-105 | The label is "Hopeful" iff the offset is above 50, "Fearful" iff below -50, and "Swipe to decide" otherwise. The two lean captions and badges are never shown together. |
| Card.IndicatorColor | src/components/ScenarioCard.tsx:62-66 | Green, red or grey, exactly when the label leans hopeful, leans fearful or does not lean. |
| Card.HopefulBadgeShown | src/components/ScenarioCard.tsx:111-118 | The green badge, and the bold "Hopeful →" caption of line 102, show only for a rightward drag. They always show once the drag is far enough that a release would swipe hopeful. |
| Card.FearfulBadgeShown | src/components/ScenarioCard.tsx:120-127 | The red badge, and the bold "← Fearful" caption of line 94, show only for a leftward drag and never together with the hopeful badge. They always show once a release would swipe fearful. |
| Card.ReleaseDecision | src/components/ScenarioCard.tsx:44-46 | Release decides hopeful iff the offset is above 100, fearful iff below -100, and nothing iff it is within [-100, 100]. |
| Card.Next | src/components/ScenarioCard.tsx:15-55 | One event's effect on the gesture state: a press arms, a move tracks the offset only while armed, a release resets. The state stays consistent: unarmed means offset 0. |
| Card.Fired | src/components/ScenarioCard.tsx:43-49 | The callbacks of one event come as `onSwipe` then `onComplete` pairs, and an unarmed card fires none. |
| Card.PairedAppend | src/components/ScenarioCard.tsx:43-49 | Two callback traces made of swipe/complete pairs concatenate to one. |
| Card.RunConsistent | src/components/ScenarioCard.tsx:13-54 | No sequence of events breaks "unarmed means offset 0". |
| Card.RunPaired | src/components/ScenarioCard.tsx:43-49 | Over any sequence of events, each `onSwipe` is followed by exactly one `onComplete`, and there are at most two callbacks per release. |
| Card.NoPressNoCallbacks | src/components/ScenarioCard.tsx:25-41 | From an unarmed card, moves, releases and mouse-leaves with no press fire nothing and leave the card unarmed. |
| Card.SwipeCard.constructor | src/components/ScenarioCard.tsx:11-13 | A new card is idle and has made no callback. |
| Card.SwipeCard.Press | src/components/ScenarioCard.tsx:15-23 | Records `startX` and arms the card. It fires nothing and matches `Next`. |
| Card.SwipeCard.Move | src/components/ScenarioCard.tsx:25-33 | While armed, sets the offset to `clientX - startX`; otherwise changes nothing. It fires nothing and matches `Next`. |
| Card.SwipeCard.Release | src/components/ScenarioCard.tsx:35-55 | Appends `onSwipe(id, direction)` then `onComplete` exactly when the offset's magnitude exceeds 100, and always resets to idle. An unarmed card fires nothing. |
| Results.WithStatus | src/components/ResultsScreen.tsx:14-16 | A filter result holds only list members with the wanted decision, and every such member of the list is in it. |
| Results.FiltersPartition | src/components/ResultsScreen.tsx:14-16 | The hopeful, fearful and undecided filters split the list: their lengths add up to its length and their multisets to its multiset. |
| Results.HopefulScenarios | src/components/ResultsScreen.tsx:14 | Holds only list members decided hopeful, and every such member. |
| Results.FearfulScenarios | src/components/ResultsScreen.tsx:15 | Holds only list members decided fearful, and every such member. |
| Results.UndecidedScenarios | src/components/ResultsScreen.tsx:16 | Holds only undecided list members, and every such member. |
| Results.WithStatusAppend | src/components/ResultsScreen.tsx:14-16 | Filtering a concatenation filters each part. |
| Results.WithStatusUniform | src/components/ResultsScreen.tsx:14-16 | A list all of one decision is kept whole by that decision's filter and emptied by the others. |
| Results.TotalDecided | src/components/ResultsScreen.tsx:19 | The decided count is the list length minus the undecided count, so it never exceeds the length. |
| Results.Percentage | src/components/ResultsScreen.tsx:20-21 | 0 for a zero total. Otherwise the integer nearest to 100·count/total, with halves rounded up. At most 100 when count ≤ total. |
| Results.HopefulPercentage | src/components/ResultsScreen.tsx:20 | The hopeful share lies in [0, 100]. |
| Results.FearfulPercentage | src/components/ResultsScreen.tsx:21 | The fearful share lies in [0, 100]. |
| Results.PercentagesSum | src/components/ResultsScreen.tsx:19-21 | Both shares are 0 when nothing is decided. Otherwise they sum to 100 or 101, and to 101 exactly when a share ends in exactly one half (200·count + total = 2·total·share), which then holds for both shares. |
| Results.RoundedSharesSum | src/components/ResultsScreen.tsx:20-21 | Two complementary counts rounded half up sum to 100 or 101, and to 101 iff the first rounding added exactly one half. |
| Results.PercentageOfWhole | src/components/ResultsScreen.tsx:68 | A count equal to its total is 100 percent. |
| Results.RatedPercentage | src/components/ResultsScreen.tsx:68 | The rated figure is undefined (NaN) exactly for an empty list, otherwise at most 100, and 100 when every scenario is decided. |
| Results.UndecidedWarning | src/components/ResultsScreen.tsx:49 | The warning is shown iff some scenario has no decision. |
| Results.ResultsPanel.constructor | src/components/ResultsScreen.tsx:10-11 | Starts not submitting and not submitted. |
| Results.ResultsPanel.HandleSubmit | src/components/ResultsScreen.tsx:23-37 | With no profile nothing changes. Otherwise the profile and scenarios are handed to storage once. `submitted` becomes true only when that succeeds, and a failure adds the alert. `isSubmitting` is false afterwards. |
| Progression.ShouldFetch | src/components/ScenarioScreen.tsx:20 | The fetch guard: a profile is set and the list is empty. |
| Progression.FetchRunsOnce | eduswipe/src/components/ScenarioScreen.tsx:19 | Every fetch installs a non-empty list, so once a fetch has completed the guard is closed. |
| Progression.Throws | src/components/ScenarioScreen.tsx:26-41 | A reply throws inside the `try` when the request fails or the response is not ok, whatever its body. An ok response throws exactly when its body is not JSON. |
| Progression.SampleId | src/components/ScenarioScreen.tsx:50 | A sample id is `sample-` followed by the decimal digits of i + 1. |
| Progression.SampleText | src/components/ScenarioScreen.tsx:51 | A sample text is non-empty and contains the sample's number. |
| Progression.SampleScenarios | src/components/ScenarioScreen.tsx:49-52 | The sample list of n has n undecided entries with ids `sample-(i+1)`. |
| Progression.SamplesWellFormed | src/components/ScenarioScreen.tsx:60-63 | Sample ids are distinct, texts are non-empty, and no sample is decided. |
| Progression.Outcome | src/components/ScenarioScreen.tsx:26-67 | The error is shown iff the reply throws, and then it is the fixed message. A throwing reply installs the samples. A good reply carrying at least one scenario installs exactly that list with no error, and the received list is installed from no other reply. Any other good reply installs the samples silently. A list is always installed. |
| Progression.NextIndex | src/components/ScenarioScreen.tsx:86-92 | The next index is i+1, still on the list, exactly when i+1 < n; otherwise the results follow. |
| Progression.Completions | eduswipe/src/components/ScenarioScreen.tsx:72-79 | From card i of n, k completions reach card i+k while it exists, and the results once the last card is done. The index never leaves the list. |
| ScenarioScreen.SampleIds | src/components/ScenarioScreen.tsx:49-52 | The current screen's sample list is `sample-1` … `sample-5`. |
| ScenarioScreen.ScenarioScreen.constructor | src/components/ScenarioScreen.tsx:13-16 | Not loading, no error, index 0, not transitioning. |
| ScenarioScreen.ScenarioScreen.LoadScenarios | src/components/ScenarioScreen.tsx:19-71 | Fetches iff there is a profile and no scenario. Then it installs the list and error of `Outcome` with five samples, and ends with `loading` false. After a thrown fetch no card is shown. Otherwise nothing changes. Step, profile and index are untouched. |
| ScenarioScreen.ScenarioScreen.HandleSwipe | src/components/ScenarioScreen.tsx:73-76 | Forwards the decision to the store unchanged. |
| ScenarioScreen.ScenarioScreen.HandleComplete | src/components/ScenarioScreen.tsx:78-83 | A no-op while transitioning. Otherwise it starts transitioning and schedules one timer; at most one timer is ever pending. |
| ScenarioScreen.ScenarioScreen.TimerFires | src/components/ScenarioScreen.tsx:85-94 | Moves to the next card if there is one, else sets the step to results. Both paths end the transition, and the index stays on the list. |
| ScenarioScreen.ScenarioScreen.ShownCard | src/components/ScenarioScreen.tsx:97-161 | A card is shown iff the screen is not loading, has no error, is not transitioning and has a non-empty list, and it is a scenario of the list. The spinner and the error view come first. |
| LegacyScenarioScreen.SampleIds | eduswipe/src/components/ScenarioScreen.tsx:44-47 | The older screen's sample list is `sample-1` … `sample-10`. |
| LegacyScenarioScreen.LegacyScreen.constructor | eduswipe/src/components/ScenarioScreen.tsx:13-15 | Not loading, no error, index 0. |
| LegacyScenarioScreen.LegacyScreen.LoadScenarios | eduswipe/src/components/ScenarioScreen.tsx:18-66 | Fetches iff there is a profile and no scenario. A non-ok response throws before its body is read. The result is `Outcome` with ten samples, and `loading` ends false. After a thrown fetch no card is shown. |
| LegacyScenarioScreen.LegacyScreen.HandleSwipe | eduswipe/src/components/ScenarioScreen.tsx:68-70 | Forwards the decision to the store unchanged. |
| LegacyScenarioScreen.LegacyScreen.HandleComplete | eduswipe/src/components/ScenarioScreen.tsx:72-79 | Advances at once on every call, with no guard: the next index if there is one, else the results step. |
| LegacyScenarioScreen.LegacyScreen.ShownCard | eduswipe/src/components/ScenarioScreen.tsx:80-136 | A card is shown iff the screen is not loading, has no error and has a non-empty list, and it is a scenario of the list. |
| Questionnaire.ProfileFor | src/components/Questionnaire.tsx:17-29 | There is no profile iff the challenges are all white space. Otherwise it is exactly the four field values, with the challenges untrimmed. |
| Questionnaire.QuestionnaireForm.constructor | src/components/Questionnaire.tsx:8-12 | The defaults are student, beginner, k-12, empty challenges, and not submitting. |
| Questionnaire.QuestionnaireForm.ChooseRole | src/components/Questionnaire.tsx:47 | Sets the role. |
| Questionnaire.QuestionnaireForm.ChooseExperienceLevel | src/components/Questionnaire.tsx:64 | Sets the experience level. |
| Questionnaire.QuestionnaireForm.ChooseEducationalSetting | src/components/Questionnaire.tsx:80 | Sets the educational setting. |
| Questionnaire.QuestionnaireForm.TypeChallenges | src/components/Questionnaire.tsx:96 | Sets the challenges text. |
| Questionnaire.QuestionnaireForm.HandleSubmit | src/components/Questionnaire.tsx:14-34 | Accepts iff the challenges are not blank. A rejection adds the alert and leaves the store and `isSubmitting` unchanged. An acceptance stores exactly the four field values and moves the step to scenarios, with `isSubmitting` false on return. The list is never touched. |
| Text.Trim | src/components/Questionnaire.tsx:17 | `trim()` is no longer than its input, is empty iff the input is all white space, and otherwise starts and ends with a non-white-space character. |
| Text.TrimEmptyIffBlank | src/components/Questionnaire.tsx:17 | `trim()` yields the empty string iff every character is JavaScript white space. |
| Text.Decimal | src/app/api/scenarios/route.ts:31 | `${n}` of a natural number is a non-empty string of decimal digits, with at least two digits from 10 on. |
| Text.DecimalRoundTrip | src/app/api/scenarios/route.ts:31 | Reading the digits of `${n}` back gives n. |
| Text.DecimalInjective | src/app/api/scenarios/route.ts:31 | Different numbers render to different decimal strings, so numbered ids never collide. |
| ScenariosEndpoint.HasClient | src/app/api/scenarios/route.ts:11-19 | No client for a missing key or the empty string, which is falsy; a client for any non-empty key. |
| ScenariosEndpoint.ParseContent | src/app/api/scenarios/route.ts:62 | Null or empty content is replaced by the literal with an empty `scenarios` array; other content goes to `JSON.parse` as it is. |
| ScenariosEndpoint.Post | src/app/api/scenarios/route.ts:21-81 | The handler answers 200 with `scenarios` or 500 with `error`. Listed scenarios have positional ids. An error is one of the two messages, and it is the parse message iff a client exists, the profile is present and the content fails to parse. A malformed body or missing profile gives the generation-failure message. |
| ScenariosEndpoint.ThrownAfterParseFails | src/app/api/scenarios/route.ts:52-80 | With a client and a profile, a failed or choice-less model call, content parsing to `null`, a non-array `scenarios`, or an array holding `null` each answer 500 with the generation-failure message. |
| ScenariosEndpoint.ScenarioId | src/app/api/scenarios/route.ts:31 | `scenario-${index + 1}`: the prefix followed by the decimal digits of index + 1. |
| ScenariosEndpoint.PlaceholderText | src/app/api/scenarios/route.ts:32 | The placeholder text opens with "This is a placeholder scenario for " and closes with the sentence asking for an OpenAI API key. The role and setting are in between. |
| ScenariosEndpoint.Placeholders | src/app/api/scenarios/route.ts:29-34 | Five placeholders with positional ids, each with the placeholder text. |
| ScenariosEndpoint.WithIds | src/app/api/scenarios/route.ts:71-74 | The output has the input's length, positional ids, and each item's text copied. |
| ScenariosEndpoint.PositionalIdsDistinct | src/app/api/scenarios/route.ts:71-74 | Positional ids never repeat. |
| ScenariosEndpoint.PlaceholderMentionsProfile | src/app/api/scenarios/route.ts:32 | The placeholder text contains the profile's role and educational setting. |
| ScenariosEndpoint.NoKeyGivesPlaceholders | src/app/api/scenarios/route.ts:11-34 | Without a key the answer is 200 with the placeholders `scenario-1` … `scenario-5`, each naming the role and setting. |
| ScenariosEndpoint.ParsedListKept | src/app/api/scenarios/route.ts:68-76 | A parsed array comes back whole: same length, ids by position, texts unchanged. |
| ScenariosEndpoint.NoContentGivesEmptyList | src/app/api/scenarios/route.ts:58-68 | Null or empty content, or a value without `scenarios`, answers 200 with an empty list. |
| Flow.TeacherAccepted | src/components/Questionnaire.tsx:17-29 | A teacher's non-blank answers are accepted as typed. |
| Flow.TeacherPlaceholders | src/app/api/scenarios/route.ts:27-34 | A K-12 teacher without a key receives five scenarios with distinct ids, each naming "teacher" and "k-12". |
| Flow.ThreeHopefulTwoFearful | src/components/ResultsScreen.tsx:14-21 | Swiping five distinct scenarios three right and two left shows 60 percent hopeful, 40 percent fearful and no undecided warning. |
| Flow.SharesCanSumTo101 | src/components/ResultsScreen.tsx:20-21 | One hopeful and seven fearful show 13 and 88 percent, 101 in total. |
| Flow.SessionWalkthrough | src/store/index.ts:14-26 | Setting the profile, the list and one decision leaves the scenarios step, the profile, the ids, and the decision on the first scenario. |

## Left out

- Persistence: the `persist` middleware, `localStorage`, and the reset on the results screen (`localStorage.removeItem`, `window.location.reload`). These are browser storage side effects.
- `src/utils/storage.ts` is not part of this model. Its success or failure is the `ok` parameter of `Results.ResultsPanel.HandleSubmit`.
- Page routing, JSX and styling, including the buttons that call `setStep('questionnaire')` or `setStep('scenarios')`. Those are plain `SetStep` calls already covered by the store.
- The floating-point `rotation` and `opacity` of a card. Pointer coordinates and offsets are exact reals, so fractional offsets such as 100.5 are covered, but IEEE rounding of `clientX - startX` is not. `Math.round` on IEEE doubles is replaced by exact round-half-up integer arithmetic.
- The OpenAI client, the prompt text, `fetch` and `JSON.parse`. These are foreign calls, taken as inputs.
- Non-string `text` values inside a parsed item. These are abstracted as `Option<string>`.
- Console logging.
- React Strict Mode (`reactStrictMode: true` in next.config.ts) runs the mount effect of either scenario screen twice in development, and the effect returns no cleanup. So two fetches can be in flight at once, and the later reply replaces the list, dropping any decision already made on the first. The model runs the effect once, so it does not capture that overlap.
- Real timing, React's asynchronous re-rendering and stale closures. A fetch is one atomic step, the intermediate `loading == true` is not observable, and the timer is an explicit step.
- Component remounting, for example when the results screen sends the user back to the scenarios. That remount resets the component's own state.
- Results.RatedPercentage: only states "100 when every scenario is decided", not the converse. For lists of 200 or more, one undecided scenario still rounds to 100.
- ScenarioScreen.ScenarioScreen.Valid: keeps the index on the list or at 0. The stronger "index ≤ length − 1" cannot hold for an empty list, where the index is 0.
