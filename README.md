# Discord auto-quest script: a Dafny model of its decision rules

The script `quest-code.js` runs inside the Discord web client. It first locates the client's
internal stores in the module registry (`findModule`, `loadStores`). Next it selects the user's
active quests (`getActiveQuests`) and builds a state record for each (`initializeQuestState`).
Then it drives each quest to completion, one at a time, in list order (the loop of
`runQuestCode`). A quest whose task type starts with `WATCH_VIDEO` advances through
video-progress posts (`processVideoStep`). Every other task type advances through heartbeat
posts that carry a stream key derived from the user's channels (`processHeartbeatStep`).

The model has six modules:

- `JsValues`: `Option`, which stands for `?.`/`??`, and `Nullable`, which tells a missing
  field (`undefined`) apart from `null` for the strict `!== null` tests.
- `ModuleSearch`:
  - `FindModule` is the first-match search, proved against the specification function
    `FirstMatch`.
  - `LoadStores` gives the contract that a missing quests store or network client yields no
    stores; `Client` picks the client out of the module found for it.
- `QuestDiscovery`:
  - `ActiveQuests` is the discovery filter; it is an order-preserving selection.
  - `InitializeQuestState` covers the task-type priority and the fallback chains.
  - The module also holds the finding below.
- `StreamKeys`: the channel-id resolution and the `call:<id>:1` key, with its round trip.
- `QuestSteps`: the video step and the heartbeat step as functions of the prior progress and
  of the host's answers, specified by `VideoStepSpec` and `HeartbeatStepSpec`, plus the video
  loop `VideoRun` and lemmas about a whole video run.
- `QuestRunner`:
  - `QuestState` is a class whose `ProcessVideoStep` and `ProcessHeartbeatStep` update
    `currentProgress` and `completed` in place.
  - `RunQuests` is the driver loop, specified by a step log. Each logged step is the step its
    quest's path prescribes. The log visits quests in order, continues each quest from where
    its last step left it, and moves on only once a quest is completed.
  - On a video quest, the stretch of the log that steps it is `VideoRun` over the inputs it
    consumed (`VideoSegmentIsVideoRun`), so the completion lemma about `VideoRun` carries over
    to the driver (`LoggedVideoQuestCompletes`).

Host dependencies are parameters:

- the clock: `now`, in integer milliseconds;
- the jitter of `Math.random()`: a real in `[0,1)`;
- the outcome of every network post: failed, or answered with the fields the code reads;
- the contents of the channel stores.

The driver consumes one `StepInput` per step. A run whose inputs run out ends with
`OutOfInput`, which stands for the script's unbounded `while (!state.completed)`.

Progress and targets are `real`, since the code only adds, takes `min` and compares them.

Progress need not increase within a run: a successful heartbeat replaces it with the server's
value (quest-code.js:203-204). `HeartbeatProgressMayDrop` exhibits a drop.

## Model

| member | source | states |
|---|---|---|
| ModuleSearch.MatchIn | quest-code.js:47-50 | The result is the first of the present slots `A`, `Ay`, `ZP`, then the export object, that the predicate accepts; it is none exactly when no slot is accepted |
| ModuleSearch.FirstMatch | quest-code.js:43-54 | The lookup result is none exactly when no module record has an accepted slot; otherwise it is the slot match of the first record that has one, and it satisfies the predicate |
| ModuleSearch.FindModule | quest-code.js:43-54 | The scan over the records with early returns yields exactly `FirstMatch`; a missing or falsy record is skipped, and no match yields none rather than an error |
| ModuleSearch.Client | quest-code.js:152 | The client is the found module's `Bo` slot when present, else its `tn` slot, else the module itself |
| ModuleSearch.LoadStores | quest-code.js:143-156 | No stores exactly when the quests-store lookup or the client lookup finds nothing; otherwise each store is its lookup's first match, the optional channel stores may be absent, and the client is `Client` of the client lookup's match |
| QuestDiscovery.IsVideoIsWatchVideoPrefix | quest-code.js:95 | The video path is taken exactly for the task types whose name starts with `WATCH_VIDEO`, which are `WATCH_VIDEO` and `WATCH_VIDEO_ON_MOBILE` |
| QuestDiscovery.FilterSelectsInOrder | quest-code.js:112-120 | The filter's result lists, at ascending positions of the input, exactly the elements that pass the test |
| QuestDiscovery.FilterIsOrderedSelection | quest-code.js:112-120 | The filter's result is an order-preserving selection of exactly the passing elements |
| QuestDiscovery.ActiveQuests | quest-code.js:109-121 | Discovery fails (throws) exactly when some quest has neither `taskConfig` nor `taskConfigV2`; otherwise it keeps, in store order, exactly the quests that are enrolled, not completed, expire after `now`, and have a supported key that is not `=== null` |
| QuestDiscovery.FirstNonNull | quest-code.js:125-126 | The task type is the first type of the priority list whose entry is neither missing nor `null`; there is none exactly when no listed type has one |
| QuestDiscovery.InitializeQuestState | quest-code.js:123-141 | The task type is `FirstNonNull` over the priority list; the target is that task's `target`, else 0; progress falls back from the task's progress value to `streamProgressSeconds` to 0; `completed` holds exactly when progress reaches the target; the enrolment time is kept |
| QuestDiscovery.TasklessQuestStartsCompleted | quest-code.js:126-137 | A quest with no supported task gets no task type and target 0, so it starts completed when its fallback progress is not negative |
| QuestDiscovery.StrictFilterKeepsTasklessQuest | quest-code.js:117 | A quest whose task map has none of the supported keys passes the strict filter, while the loose test drops it |
| QuestDiscovery.TasklessQuestIsDoneAtOnce | quest-code.js:123-141 | That quest starts with no task type, target 0, and already completed |
| QuestDiscovery.IntendedActiveQuests | quest-code.js:117 | With the loose `!= null` test, discovery keeps an order-preserving selection, and every kept quest gets a task type |
| QuestDiscovery.IntendedFilterDropsTasklessQuest | quest-code.js:117 | The loose filter drops the quest that has no supported task |
| StreamKeys.FirstVoiceGuild | quest-code.js:191 | The position found is that of the first guild with a non-empty `VOCAL` list, or past the end when no guild has one |
| StreamKeys.CallKeyRoundTrip | quest-code.js:195 | Reading the id back out of `call:<id>:1` gives the id |
| StreamKeys.ParsedKeyIsCallKey | quest-code.js:195 | Any key that parses is the call key of the id it parses to |
| StreamKeys.CallKeyInjective | quest-code.js:195 | Different ids give different stream keys |
| StreamKeys.StreamKeyChoice | quest-code.js:188-195 | The key names the first private channel if it has an id; otherwise, when the guild store is present, the first voice channel of the first guild with one; otherwise the quest |
| StreamKeys.StreamKeyNamesItsId | quest-code.js:188-195 | The id carried by the key is the resolved channel id, or the quest id when none resolved |
| QuestSteps.MaxAllowed | quest-code.js:166 | The allowance is the whole seconds elapsed since enrolment, rounded down, plus 10 |
| QuestSteps.VideoStepSpec | quest-code.js:162-182 | No post and no change when the allowance exceeds progress by less than 7. Otherwise the claimed time is exactly `min(target, cur + 7 + jitter)`: it never exceeds the target, is the target or lies in `[cur+7, cur+8)`, stays below the allowance plus 1, and rises strictly while below the target. A failed post changes nothing; a successful one stores the claimed time. Completion holds exactly when the answer has a body and either the server reports completion (`completed_at !== null`) or the target is reached; a completed step sends one more post, pinned at the target |
| QuestSteps.HeartbeatStepSpec | quest-code.js:197-215 | A non-terminal heartbeat with the derived key always goes first. A failure changes nothing. A success replaces progress with the server's value, or 0 when none is reported. A terminal heartbeat follows exactly when that value reaches the target. `completed` is set only when the terminal post succeeds |
| QuestSteps.HeartbeatProgressMayDrop | quest-code.js:203-204 | A successful heartbeat can lower the progress |
| QuestSteps.VideoRunCompletes | quest-code.js:94-99 | Given more than `(target - current) / 7` timely inputs (each late enough after enrolment that the rate guard never holds the step back, and answered with a body), a video quest at or below its target ends completed; no post claims more than the target, and the last post claims exactly the target |
| QuestSteps.ThreeHundredSecondQuestCompletes | quest-code.js:94-99 | A 300-second video quest starting from progress 0 completes within 43 steps when every step comes late enough after enrolment that the rate guard never holds it back, and every post is answered with a body |
| QuestRunner.QuestState.constructor | quest-code.js:81 | The state object carries the quest and exactly the fields `initializeQuestState` computes |
| QuestRunner.QuestState.ProcessVideoStep | quest-code.js:162-182 | The in-place update leaves progress and completion as `VideoStep` prescribes from the old state, and returns its posts |
| QuestRunner.QuestState.ProcessHeartbeatStep | quest-code.js:184-216 | The stream key is derived from the channel stores; the in-place update leaves progress and completion as `HeartbeatStep` prescribes, and returns its posts |
| QuestRunner.TakeStep | quest-code.js:95-103 | One inner-loop step takes the video path exactly for `WATCH_VIDEO*` types and the heartbeat path otherwise; the record holds the quest's state before and after it |
| QuestRunner.StepQuest | quest-code.js:94-104 | One more step on the current quest extends the log by exactly one record, for this quest, from its state before the step to its state after; the driver's log stays consistent with every quest's state |
| QuestRunner.RunQuest | quest-code.js:94-104 | The inner loop only extends the log, with steps of this quest, and steps it until it is completed; it stops early only when the quest has no task type (the run throws) or the inputs run out |
| QuestRunner.RunQuests | quest-code.js:91-105 | Every step is the step its quest's path prescribes and is taken on a not-yet-completed quest. Quests are visited in list order, and each continues from its previous step. The driver moves on only after completing a quest; quests completed at the start are never stepped. On a full run every quest ends completed. A stopped run steps no quest after the one it stopped at, leaves earlier quests completed and later ones untouched, and it stops because the quest has no task type or because the inputs ran out on a quest that has one |
| QuestRunner.VideoSegmentIsVideoRun | quest-code.js:94-99 | On a video quest, a run of consecutive steps from a given progress has the final state and the posts, in order, of the video loop `VideoRun` over the inputs those steps consumed |
| QuestRunner.LoggedSegment | quest-code.js:91-105 | In the driver's log, the steps of one quest from its first step are a run of consecutive steps from that quest's state before the run |
| QuestRunner.VideoSegmentCompletes | quest-code.js:94-99 | A run of steps on a video quest, starting at or below the target and consuming more than `(target - current) / 7` timely inputs, ends completed; no post claims more than the target and the last claims exactly the target |
| QuestRunner.LoggedVideoQuestCompletes | quest-code.js:91-105 | In the driver's log, a video quest whose steps consumed more than `(target - current) / 7` timely inputs is completed by its last step |

## Left out

- `waitForWebpack` (quest-code.js:4-41) is host bootstrapping: timers, `window` globals and the chunk-array trick. Its retries are bounded at 100 attempts.
- The structural predicates `loadStores` passes to the lookup (quest-code.js:145-148) test prototypes of host objects. They are parameters of `LoadStores`.
- An exception thrown inside one of those predicates turns the result into "no stores". This is not modelled.
- `sendUpdate` and `notifyUI` (quest-code.js:56-62, 158-160) are fire-and-forget messages to the page. This includes the `QUEST_LIST` snapshot (quest-code.js:83-89).
- The version banner and logging (quest-code.js:66-70, 77) are left out.
- Network calls, `async`/`await` and the delays between steps (quest-code.js:99, 102) are left out. Each post's outcome is an input, and a delay is nothing.
- `Date` parsing, `Date.now()` and `Math.random()` are inputs: integer milliseconds and a jitter in `[0,1)`.
- Progress is a mathematical real. IEEE-754 rounding of the additions and comparisons is not modelled.
- Truthiness of `completedAt` and `enrolledAt` is modelled as presence. An empty string in those fields is not modelled.
- In the filter, an `expiresAt` that does not parse as a date is not modelled.
- QuestDiscovery.ActiveQuests: discovery also throws when the chosen configuration has no `tasks` object (quest-code.js:117). The model's configuration always carries a task map, so that throw is not modelled.
- QuestSteps.VideoStepSpec: the answer to the final post pinned at the target is not an input. The code sets `completed` before sending that post, so its outcome changes nothing.
- QuestRunner.RunQuests: the run's outer `catch` (quest-code.js:106) is modelled only for the throw the driver itself can raise, a quest without a task type. Host objects throwing elsewhere, for example a channel store method outside the step's `try`, are not modelled.
- QuestRunner.RunQuests: the driver runs only while inputs last. The script's unbounded loop over a quest that never completes shows up as an `OutOfInput` outcome.

## Findings

| source | as written | input that shows it | evidently intended | confidence | as-written member | corrected member |
|---|---|---|---|---|---|---|
| quest-code.js:117 | A quest counts as having a supported task when some supported key's entry is `!== null`. A key missing from the task map is `undefined`, which passes. | A quest, enrolled and neither completed nor expired, whose `tasks` has none of the five supported keys. It is kept, gets no task type and target 0, and starts completed. If its fallback progress were negative, the driver would throw on `taskType.startsWith`. | `!= null`, as in `initializeQuestState` (quest-code.js:126): keep only quests that have a supported task | high (not executed) | QuestDiscovery.StrictFilterKeepsTasklessQuest | QuestDiscovery.IntendedActiveQuests |
