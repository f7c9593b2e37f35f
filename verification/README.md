# Fibre-installation photo bot: a Dafny model

This project models the core of a WhatsApp bot. The bot walks a field agent through a
fibre installation one photo at a time. For each photo it:

- downloads the photo;
- has an AI verifier score it against the step's requirements;
- on a pass, moves the agent's session on to the next step.

The repository has two generations, and both are modelled:

- **Current bot** (`src/`). An agent first sends a DR number (`DR` plus 4–10 digits), then
  shares a location, then goes through 12 photo steps. The agent can switch between up to
  eleven DRs; each inactive DR's progress is kept in a snapshot. Admin commands SKIP and
  STRICTNESS exist for testing.
- **Legacy bot** (`foto_bot_backup_20251003_164238/src/`). One installation per phone number
  and 14 photo steps starting at step 1. This tree also holds the verifier: it calls the
  model, unfences and decodes its answer, falls back to keywords, and judges batches.

Modules:

- `Common`: shared definitions:
  - options and Python truthiness;
  - statuses and job ids;
  - verdicts;
  - the incoming message;
  - the download outcome;
  - praise levels;
  - `dict.get`.
- `Text`: the ASCII string operations the code relies on:
  - `strip` and `upper`/`lower`;
  - `in` on strings and `replace`;
  - `split`;
  - `capitalize`;
  - integer printing;
  - lexicographic order.
- `Phone`: phone-number normalisation and agent ids.
- `Progress`: the step cursor with `complete_step`, for any number of steps.
- `Prompts` and `LegacyPrompts`: the 12-step and 14-step rubric tables.
- `Sessions` and `SessionFacts`: the current session store, including DR switching, the
  installation list and the DR bound it keeps.
- `Simplify`: the rewriting of verifier issues and recommendations into plain tips.
- `Bot` and `BotFacts`: the current message router and handlers, and properties of message
  runs.
- `LegacySessions`, `LegacyVerifier` and `LegacyBot`: the legacy store, verifier and bot.

State is immutable. Every handler maps a store to a new store and a reply. A reply is a kind
with its data, not the Markdown text. Things outside the model are parameters of an
environment datatype:

- the clock, as an integer time;
- the photo download;
- the verifier of the current bot, whose source is not part of this model;
- Python's `float()`;
- the model call;
- `json.loads`.

## Model

| member | source | states |
|---|---|---|
| Common.MintJobId | src/storage/sessions.py:344-349 | the job id carries the time and the agent, and carries a DR suffix exactly when the DR is truthy |
| Phone.Normalize | src/storage/sessions.py:220-224 | the key always starts with one `+`, has no other `+`, and adds no character the input lacked; the legacy store normalises identically |
| Phone.AgentIdOf | src/storage/sessions.py:226-228 | an agent id never contains `+` |
| Phone.NormalizePlain | src/storage/sessions.py:220-224 | a number with neither `+` nor `whatsapp:` keeps every character, in order, behind one `+` |
| Phone.NormalizeDropsPlus | src/storage/sessions.py:220-224 | a leading `+` does not change the key |
| Phone.NormalizeDropsPrefix | src/storage/sessions.py:220-224 | a leading `whatsapp:` does not change the key |
| Phone.NormalizeForms | src/bot/bot.py:564-568 | the bare, `+`-prefixed and `whatsapp:+` forms of a number all map to the same key, whose agent id is the digits |
| Progress.CompleteStep | src/storage/sessions.py:152-170 | the photo is recorded under the step and no other record changes; the cursor advances by one exactly when the step is the cursor's; past the last step the status becomes completed, otherwise it is kept |
| Progress.PassKeepsPrefix | src/storage/sessions.py:152-170 | completing the cursor's step keeps the recorded steps exactly those before the cursor |
| Progress.PassKeepsSteady | src/storage/sessions.py:162-168 | in a steady phase, a pass at the cursor keeps it steady; completed exactly when past the last step |
| Progress.PassesFromStart | src/storage/sessions.py:152-170 | k passes from a steady phase move the cursor by k, stay steady, and record one more step per pass |
| Progress.FreshIsSteady | src/bot/bot.py:667-693 | a fresh photo phase at step 1 is steady |
| Prompts.StepNamesCoverRubric | src/prompts.py:235-248 | the step names cover exactly steps 1–12 |
| Prompts.StepRequirementsCoverRubric | src/prompts.py:251-264 | the requirements cover exactly steps 1–12, the same keys as the names |
| Prompts.PromptKeysDistinct | src/prompts.py:3-232 | the twelve prompt keys are distinct |
| Prompts.PromptKeysNumbered | src/prompts.py:3-232 | the k-th prompt key starts with `step<k>_` |
| LegacyPrompts.StepNamesCoverRubric | foto_bot_backup_20251003_164238/src/prompts.py:287-302 | the step names cover exactly steps 1–14 |
| LegacyPrompts.StepRequirementsCoverRubric | foto_bot_backup_20251003_164238/src/prompts.py:305-320 | the requirements cover exactly steps 1–14, the same keys as the names |
| LegacyPrompts.PromptKeysDistinct | foto_bot_backup_20251003_164238/src/prompts.py:3-284 | the fourteen prompt keys are distinct |
| LegacyPrompts.PromptKeysNumbered | foto_bot_backup_20251003_164238/src/prompts.py:3-284 | the k-th prompt key starts with `step<k>_` |
| Sessions.AwaitingDr | src/storage/sessions.py:172-196 | a reset installation awaits its DR: cursor 0, nothing recorded, no DR, no location, and a job minted without a DR |
| Sessions.FreshInstallation | src/storage/sessions.py:286-295 | a new DR's installation awaits its location (cursor -1), under a job minted with the DR |
| Sessions.CleanupOldSessions | src/storage/sessions.py:231-245 | stale sessions are marked abandoned with cursor, records and snapshots kept; others are untouched; nothing is removed |
| Sessions.GetSession | src/storage/sessions.py:134-137 | found exactly when the normalised number is a key, and then it is that session |
| Sessions.GetOrCreateSession | src/storage/sessions.py:95-132 | a known number only has its last activity moved; an unknown one triggers cleanup and gets a session awaiting its DR with the given or derived agent id; other sessions keep their snapshots |
| Sessions.UpdateSession | src/storage/sessions.py:139-150 | sets the location fields and cursor of the caller's session only; an unknown number changes nothing |
| Sessions.CompleteStep | src/storage/sessions.py:152-170 | only the caller's active progress changes, by the `complete_step` transition over 12 steps |
| Sessions.ResetSession | src/storage/sessions.py:172-196 | the caller awaits a DR under a new job, with every snapshot and the current DR dropped; the agent and phone are kept |
| Sessions.SavedInstallations | src/storage/sessions.py:262-273 | the outgoing installation is saved under its DR only when a truthy current DR differs from the target |
| Sessions.SwitchToDr | src/storage/sessions.py:247-303 | succeeds exactly for a known number whose target has a snapshot or whose snapshot count is under ten; failure changes nothing; success saves the outgoing installation, keeps every other snapshot as it was, restores or creates the target, and makes it current |
| Sessions.InfoFor | src/storage/sessions.py:316-342 | a row names its DR and is marked current exactly for a truthy current DR |
| Sessions.RowsOf | src/storage/sessions.py:316-342 | one row per DR, in order |
| Sessions.InstallationRows | src/storage/sessions.py:305-342 | one row per listed DR, strictly sorted by DR, each built from live fields or its snapshot |
| Sessions.InstallationRowsCover | src/storage/sessions.py:316-342 | every listed DR has a row |
| Sessions.GetInstallationList | src/storage/sessions.py:305-342 | no rows for an unknown number, otherwise that session's rows |
| Sessions.ActiveNumbers | src/storage/sessions.py:198-203 | exactly the numbers whose session is active |
| Sessions.GetSessionStats | src/storage/sessions.py:205-218 | the total is the store size; active and completed are disjoint counts within it |
| SessionFacts.SwitchKeepsBound | src/storage/sessions.py:252-273 | a switch keeps a session within eleven tracked DRs |
| SessionFacts.ElevenTrackedReachable | src/storage/sessions.py:258-273 | with nine snapshots and an unsaved current DR, a switch to a new DR succeeds and leaves eleven DRs tracked |
| SessionFacts.ElevenSnapshotsReachable | src/storage/sessions.py:258-273 | with ten snapshots, a switch to a saved DR passes the check and saves an eleventh |
| SessionFacts.SwitchRoundTrip | src/storage/sessions.py:247-303 | switching from `a` to `b` and back restores `a`'s installation exactly, and `b` is kept in a snapshot |
| SessionFacts.ResendActiveReloadsSnapshot | src/storage/sessions.py:276-285 | re-sending the active DR that has a snapshot reloads the snapshot, discarding newer live progress |
| SessionFacts.ResendActiveWithoutSnapshot | src/storage/sessions.py:258-298 | re-sending the active DR without a snapshot restarts it awaiting location, or is refused at ten snapshots |
| SessionFacts.CleanupKeepsBound | src/storage/sessions.py:231-245 | cleanup keeps every session within the bound |
| SessionFacts.GetOrCreateKeepsBound | src/storage/sessions.py:95-132 | get-or-create keeps every session within the bound |
| SessionFacts.UpdateKeepsBound | src/storage/sessions.py:139-150 | an update keeps every session within the bound |
| SessionFacts.CompleteKeepsBound | src/storage/sessions.py:152-170 | completing a step keeps every session within the bound |
| SessionFacts.ResetKeepsBound | src/storage/sessions.py:172-196 | a reset keeps every session within the bound |
| SessionFacts.BoundInvariant | src/storage/sessions.py:95-303 | every store operation keeps every session tracking at most eleven DRs |
| SessionFacts.BoundAlways | src/storage/sessions.py:95-303 | any run of store operations from a bounded store stays bounded |
| Simplify.SimplifyIssue | src/bot/bot.py:497-521 | the simplified issue is upper case at its head and lower case after; empty stays empty |
| Simplify.RewriteAllAbsent | src/bot/bot.py:497-521 | text containing none of the terms passes the rewrites unchanged |
| Simplify.SimplifyIssueIgnoresCase | src/bot/bot.py:497-521 | the issue rewriter ignores the input's case |
| Simplify.SimplifyIssuePlain | src/bot/bot.py:497-521 | an issue without technical terms is only re-cased |
| Simplify.RewriteOneTerm | src/bot/bot.py:517-519 | a rule's term alone comes out as its plain words when it holds no earlier term and its plain words hold no later one |
| Simplify.SimplifyIssueRewritesTerms | src/bot/bot.py:497-521 | each of the thirteen technical terms, alone and in any case, becomes its plain words, capitalized |
| Simplify.SimplifyIssueRewritesInsideWords | src/bot/bot.py:500-518 | terms are replaced as substrings, so "front" becomes "Frwhite box" |
| Simplify.FirstTip | src/bot/bot.py:523-543 | the tip is the first matching rule's tip, or the generic tip |
| Simplify.SimplifyRecommendation | src/bot/bot.py:523-543 | the result is always one of the seven fixed tips |
| Simplify.SimplifyRecommendationByRules | src/bot/bot.py:523-543 | the if-chain is the first-match rule over the keyword table |
| Simplify.SimplifyRecommendationIgnoresCase | src/bot/bot.py:523-543 | the recommendation rewriter ignores the input's case |
| Bot.IsLocationUrl | src/bot/bot.py:695-706 | a location exactly when some indicator occurs in the lower-cased URL |
| Bot.IsValidDr | src/bot/bot.py:708-713 | valid exactly for `DR` plus 4–10 ASCII digits, optionally followed by one newline |
| Bot.ValidDrOnStripped | src/bot/bot.py:708-713 | on stripped text the newline case cannot arise |
| Bot.RouteText | src/bot/bot.py:53-72 | each keyword event is chosen exactly for its keywords; other text goes to text input unchanged |
| Bot.Classify | src/bot/bot.py:41-72 | a truthy media URL wins over the text, and is a location exactly when it has an indicator; otherwise the stripped, upper-cased body is routed |
| Bot.StepNameOr | src/bot/bot.py:334-336 | the rubric name for steps 1–12, otherwise `Step <n>` |
| Bot.FormatVerification | src/bot/bot.py:435-495 | a pass counts the step in, names step+1 exactly when it exists, and praises from 9 and from 7; a fail shows the first three issues simplified and the simplified tip |
| Bot.PhotoRejection | src/bot/bot.py:80-94 | without a session the reply is no-installation; past step 12 it is the completion reply |
| Bot.HandlePhoto | src/bot/bot.py:78-119 | off a photo step, the rejection reply and no change; otherwise the download result decides, and only a pass completes the cursor's step |
| Bot.HandleLocation | src/bot/bot.py:667-693 | accepted exactly at cursor -1, where it records the location and moves to step 1; otherwise nothing changes |
| Bot.HandleSkip | src/bot/bot.py:147-214 | at -1 it skips the location to step 1; at a photo step it completes it with the skip marker; at 0 or past the end nothing changes |
| Bot.HandleStart | src/bot/bot.py:216-231 | get-or-create the session and report its job |
| Bot.HandleReset | src/bot/bot.py:134-145 | the sender ends up awaiting a DR with no installations |
| Bot.HandleDrInput | src/bot/bot.py:593-665 | an invalid DR, a missing session or a refused switch change nothing; otherwise the only change is the switch |
| Bot.HandleText | src/bot/bot.py:570-591 | a valid DR, or any text at cursor 0, goes to the DR handler; anything else is unknown and changes nothing |
| Bot.HandleStrictness | src/bot/bot.py:276-332 | the store never changes; a bare STRICTNESS reports the threshold; STRICT, STANDARD, LENIENT and TESTING set 9, 8, 7 and 5; `SET v` sets a finite v within [0, 10] and refuses others; any other word is an invalid command |
| Bot.StatusView | src/bot/bot.py:338-396 | no session gives no-installation, cursor 0 the awaiting-DR view; the in-progress count is the number of recorded steps |
| Bot.RowStatusOf | src/bot/bot.py:233-274 | a row's status follows the order of `_handle_list_command`: DR, location, complete, then the step |
| Bot.ListView | src/bot/bot.py:233-274 | one row per listed installation, in order; no installations gives the empty reply |
| Bot.Dispatch | src/bot/bot.py:47-72 | sessions are never removed; only a STRICTNESS event changes the threshold; STATUS, HELP, greetings and LIST change nothing |
| Bot.Handle | src/bot/bot.py:24-76 | sessions are never removed; only STRICTNESS changes the threshold; STATUS, HELP, greetings and LIST change nothing |
| BotFacts.PresetThenReport | src/bot/bot.py:284-313 | after a preset, a bare STRICTNESS reports that preset's threshold and no session has changed |
| BotFacts.DrIsPlainText | src/bot/bot.py:53-72 | a DR number is no keyword and reaches the text handler |
| BotFacts.DrRoutesToText | src/bot/bot.py:41-72 | a text message whose normal form is a DR number reaches the text handler with that form |
| BotFacts.DrMessageSwitches | src/bot/bot.py:570-665 | a valid DR from a known sender changes the store exactly as `switch_to_dr` does |
| BotFacts.PhotoGateIgnoresEnv | src/bot/bot.py:80-94 | off a photo step the photo handler ignores the download and the verifier |
| BotFacts.SkipIsSkipCommand | src/bot/bot.py:64-65 | the text SKIP is routed to the skip handler |
| BotFacts.SkipRoutes | src/bot/bot.py:64-65 | a SKIP message is handled exactly by the skip handler |
| BotFacts.SkipOnce | src/bot/bot.py:147-202 | one SKIP at a waiting step completes it with the skip marker and keeps the current DR |
| BotFacts.SkipsAdvance | test_skip_logic.py:42-68 | k SKIPs from a steady phase move the cursor by k, stay steady, and keep the current DR |
| BotFacts.ReplayAppend | src/bot/bot.py:24-76 | replaying two message runs equals replaying their concatenation |
| BotFacts.ReplayCons | src/bot/bot.py:24-76 | replaying one message and then a run equals replaying the run with the message in front |
| BotFacts.DrIsCanonical | src/bot/bot.py:593-595 | a DR number is its own stripped, upper-cased form |
| BotFacts.StartRoutes | src/bot/bot.py:53-55 | a START message is handled exactly by the start handler |
| BotFacts.StartOpens | test_skip_logic.py:25-27 | START from a new sender opens a session awaiting its DR with no installations |
| BotFacts.DrOpens | test_skip_logic.py:29-31 | the first DR opens a fresh installation awaiting location and makes it current |
| BotFacts.LocationSkipOpens | test_skip_logic.py:33-38 | SKIP while awaiting location opens step 1 |
| BotFacts.SkipWalkthrough | test_skip_logic.py:11-68 | START, a DR, SKIP, then twelve SKIPs complete the installation with every step recorded and the DR current |
| LegacySessions.CleanupOldSessions | foto_bot_backup_20251003_164238/src/storage/sessions.py:212-226 | stale sessions are marked abandoned and nothing else changes; nothing is removed |
| LegacySessions.GetSession | foto_bot_backup_20251003_164238/src/storage/sessions.py:117-120 | found exactly when the normalised number is a key |
| LegacySessions.GetOrCreateSession | foto_bot_backup_20251003_164238/src/storage/sessions.py:84-115 | only an unknown number triggers cleanup, and it gets a session at step 1 under a new job; a known one only has its activity moved |
| LegacySessions.CompleteStep | foto_bot_backup_20251003_164238/src/storage/sessions.py:135-153 | only the caller's progress changes, by the 14-step `complete_step`; an unknown number changes nothing |
| LegacySessions.ResetSession | foto_bot_backup_20251003_164238/src/storage/sessions.py:155-173 | back to step 1 with nothing recorded under a new job for the same agent |
| LegacySessions.ActiveNumbers | foto_bot_backup_20251003_164238/src/storage/sessions.py:175-180 | exactly the numbers whose session is active |
| LegacySessions.GetSessionStats | foto_bot_backup_20251003_164238/src/storage/sessions.py:182-195 | the total is the store size; active and completed are disjoint counts within it |
| LegacySessions.CleanupKeepsConsistent | foto_bot_backup_20251003_164238/src/storage/sessions.py:212-226 | marking stale sessions abandoned keeps them consistent |
| LegacySessions.GetOrCreateKeepsConsistent | foto_bot_backup_20251003_164238/src/storage/sessions.py:84-115 | get-or-create keeps every session consistent |
| LegacySessions.ResetKeepsConsistent | foto_bot_backup_20251003_164238/src/storage/sessions.py:155-173 | a reset keeps every session consistent |
| LegacySessions.HousekeepingKeepsConsistent | foto_bot_backup_20251003_164238/src/storage/sessions.py:84-173 | cleanup, get-or-create and reset keep every session consistent |
| LegacySessions.CompleteAtCursorKeepsConsistent | foto_bot_backup_20251003_164238/src/storage/sessions.py:135-153 | completing the cursor's step keeps the store consistent, advances the cursor, and completes exactly at step 14 |
| LegacySessions.OutOfOrderStepRecorded | foto_bot_backup_20251003_164238/src/storage/sessions.py:139-145 | a step other than the cursor's is recorded and the cursor stays |
| LegacyVerifier.StepKeysArePrompts | foto_bot_backup_20251003_164238/src/verifier.py:69-84 | exactly steps 1–14 have a prompt key, the k-th rubric prompt |
| LegacyVerifier.StepNameTableAgrees | foto_bot_backup_20251003_164238/src/verifier.py:189-207 | the verifier's name table equals the rubric's |
| LegacyVerifier.StepName | foto_bot_backup_20251003_164238/src/verifier.py:189-207 | the rubric name for steps 1–14, otherwise `Step <n>` |
| LegacyVerifier.Clamp | foto_bot_backup_20251003_164238/src/verifier.py:140-142 | the result lies in the bounds and equals an in-range input |
| LegacyVerifier.UnfenceBody | foto_bot_backup_20251003_164238/src/verifier.py:132-133 | a fenced JSON body comes out stripped |
| LegacyVerifier.UnfencePlain | foto_bot_backup_20251003_164238/src/verifier.py:132-133 | an unfenced answer is left as it is |
| LegacyVerifier.LooksGoodReadsAsPass | foto_bot_backup_20251003_164238/src/verifier.py:165-187 | the fallback's own "looks good" text reads as a pass |
| LegacyVerifier.ParseTextResponse | foto_bot_backup_20251003_164238/src/verifier.py:165-187 | passes exactly with a pass keyword and no fail keyword; 8 or 4, confidence 0.5; a fail carries the text as its issue |
| LegacyVerifier.VerifyStep | foto_bot_backup_20251003_164238/src/verifier.py:58-163 | score in [0, 10], confidence in [0, 1]; an unknown step gets the invalid verdict; an exception, or valid JSON that is not an object, fails with a verification-error issue; only an answered step in 1–14 whose answer is an object or not JSON can pass |
| LegacyVerifier.DecodedFields | foto_bot_backup_20251003_164238/src/verifier.py:134-144 | a decoded object gives its own fields, clamped, with the defaults for missing ones |
| LegacyVerifier.NonObjectIsError | foto_bot_backup_20251003_164238/src/verifier.py:134-163 | valid JSON that is not an object makes `.get` raise: score 0, confidence 0 (so a batch does not average it), and the `AttributeError` as the one issue |
| LegacyVerifier.UndecodedFallsBack | foto_bot_backup_20251003_164238/src/verifier.py:146-150 | an answer that does not decode falls back to the keyword reading of the unfenced text |
| LegacyVerifier.MissingPhoto | foto_bot_backup_20251003_164238/src/verifier.py:230-239 | a missing photo fails with "Photo not provided" at confidence 1 |
| LegacyVerifier.VerifyBatch | foto_bot_backup_20251003_164238/src/verifier.py:209-264 | the average lies in [0, 10]; the counts are bounded by the submissions; a pass needs average ≥ 8 and at least 12 passed steps |
| LegacyVerifier.PassedNeedExisting | foto_bot_backup_20251003_164238/src/verifier.py:223-240 | only existing photos can pass |
| LegacyVerifier.CompletionGuard | foto_bot_backup_20251003_164238/src/verifier.py:242-248 | the completion guard holds exactly for 12 or more submissions, and the status is decided by average and passed count |
| LegacyVerifier.PassingBatchHasTwelvePhotos | foto_bot_backup_20251003_164238/src/verifier.py:242-248 | a passing batch has at least 12 existing photos |
| LegacyVerifier.UncountedIgnored | foto_bot_backup_20251003_164238/src/verifier.py:223-230 | a result that is missing or not confident leaves the average's sum and count alone |
| LegacyBot.Route | foto_bot_backup_20251003_164238/src/bot/bot.py:47-58 | a truthy media URL is a photo; otherwise each command is chosen exactly for its keyword |
| LegacyBot.FormatVerification | foto_bot_backup_20251003_164238/src/bot/bot.py:189-236 | a pass counts the step in and names the next while one exists; a fail shows the first five issues and counts the rest |
| LegacyBot.HandlePhoto | foto_bot_backup_20251003_164238/src/bot/bot.py:64-94 | past step 14, the completion reply; otherwise the download decides, and only a pass completes the cursor's step |
| LegacyBot.HandleStart | foto_bot_backup_20251003_164238/src/bot/bot.py:96-111 | get-or-create the session and report its job |
| LegacyBot.StatusView | foto_bot_backup_20251003_164238/src/bot/bot.py:113-150 | no session, the completed view, or the recorded steps with a current step while one is left |
| LegacyBot.HandleReset | foto_bot_backup_20251003_164238/src/bot/bot.py:176-179 | reset, then START; the sender is back at step 1 |
| LegacyBot.Handle | foto_bot_backup_20251003_164238/src/bot/bot.py:24-62 | sessions are never removed; STATUS, HELP and unknown text change nothing |
| LegacyBot.CompletedGate | foto_bot_backup_20251003_164238/src/bot/bot.py:66-69 | past step 14 a photo ignores the download and the verifier |
| LegacyBot.PhotoStepInRubric | foto_bot_backup_20251003_164238/src/bot/bot.py:64-94 | in a consistent store, only steps 1–14 are sent to the verifier |
| LegacyBot.PhotoKeepsConsistent | foto_bot_backup_20251003_164238/src/bot/bot.py:64-94 | a photo keeps every session consistent |
| LegacyBot.HandleKeepsConsistent | foto_bot_backup_20251003_164238/src/bot/bot.py:24-62 | every message keeps recorded steps exactly those before the cursor, and completed only past step 14 |
| LegacyBot.ReplayKeepsConsistent | foto_bot_backup_20251003_164238/src/bot/bot.py:24-62 | consistency holds after any run of messages |
| LegacyBot.PassingPhotoAdvances | foto_bot_backup_20251003_164238/src/bot/bot.py:84-88 | a passing photo at a waiting step advances the cursor by one and stays steady |
| LegacyBot.PassingPhotosAdvance | foto_bot_backup_20251003_164238/src/bot/bot.py:64-94 | k passing photos advance the cursor by k and stay steady |
| LegacyBot.FourteenPassesComplete | foto_bot_backup_20251003_164238/src/bot/bot.py:64-94 | from step 1, fourteen passing photos complete the installation with every step recorded |

## Left out

- Persistence of the session store in a JSON file, the loading at start-up, and logging.
- Reply wording: replies are kinds with their data, not the Markdown text.
- The exception path of `process_message` in both bots. The model has no failure except the
  ones it represents explicitly: download exceptions and model-call exceptions.
- Case mapping is ASCII only. Python's `upper`/`lower` on non-ASCII letters and the Unicode
  digits that `\d` accepts are not modelled.
- Time is an integer and the 24-hour cutoff is subtracted from it. Datetime parsing,
  ISO strings and time zones are left out. A job id is its parts, not the formatted string.
- Floating point: scores and thresholds are exact reals. The rounding of averages and
  percentages in reports and statistics is not modelled, nor is the average steps figure
  of `get_session_stats`.
- Sessions.UpdateSession: only the keyword form the bot uses is modelled, because
  `update_session(**kwargs)` sets arbitrary attributes. The legacy `update_session` is not
  called by the legacy bot and is not modelled.
- The verifier of the current bot and `src/config.py` are not part of this model. The bot
  takes the verifier as a parameter and starts from the threshold 8.0 of the legacy
  configuration.
- `media_id` is not used by the current bot's photo handler, so the current `Message` carries
  it but no handler reads it.
- The OpenAI call, image encoding and the file-existence test are parameters (`ask` and
  `onDisk`). `json.loads` is the `decode` parameter. It returns a decode error, a value that is
  not an object (named by its Python type), or an object's typed optional fields. Object
  fields of unexpected types are not modelled.
- LegacyVerifier.VerifyBatch: the per-step results map and `_generate_summary` text are not
  modelled, and the batch is a list of distinct steps rather than a dictionary.
- Sessions.ActiveNumbers: `get_active_sessions` returns session objects; the model returns
  the set of their numbers.
- Bot.StatusView: the status list names and display order are modelled as sets of steps.
- The help, greeting and unknown-command replies are constant texts and carry no state
  change; `get_bot_stats`, the web routes, the dashboard and the message handler's HTTP
  code are outside the core.
