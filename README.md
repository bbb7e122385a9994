# Clinical scales app — verified model of its core logic

This project models, in Dafny, the logic of a mobile app for clinical
assessment scales that does not depend on the UI or the backend:

- the **Barthel Index catalogue**: ten activities of daily living, each with its
  ordered answer options worth 0, 5, 10 or 15 points (`barthel.dfy`);
- the **assessment session hook**: a draft with patient fields and an answer
  object, the screen step, the current question, the score (sum of the
  answers) and its Barthel interpretation, finishing (save to the local log,
  then the results step) and reset (`scale_assessment.dfy`);
- the **scale preference store**: a duplicate-free favourites list and a
  move-to-front "recently viewed" list capped at ten (`scales_store.dfy`);
- the **settings store**: seven settings whose notification toggles keep the
  rule "a specific notification on implies the global flag on"
  (`settings_store.dfy`);
- the **local assessment log**: saving prepends a freshly stamped record to a
  list kept under one storage key; clearing removes the key
  (`local_assessments.dfy`);
- the **error state holder** of the screens (`error_handler.dfy`);
- the **pure helpers of the backend wrapper**: the role-to-permission table
  (`permissions.dfy`), the retry classification and error normalisation
  (`api_errors.dfy`), the retry loop with exponential backoff (`retry.dfy`),
  the recursive redaction of log records (`log_sanitizer.dfy`) and the
  structural token check (`token.dfy`).

Shared helpers: `optional.dfy` (an `Option` type standing for `null`/`undefined`),
`text.dfy` (the JavaScript string methods used: `startsWith`, `includes`,
ASCII `toLowerCase`, `split` on one character, number-to-decimal) and
`js_object.dfy` (a string-keyed JavaScript object as its list of entries in
insertion order, with the spread-update `{...o, [k]: v}`; see "## Left out"
for keys that look like array indices).

Stateful parts are classes whose fields the methods update
(`AssessmentSession`, `Preferences`, `SettingsStore.Store`, `Storage`,
`ErrorHolder`); each method's postcondition ties the new state to a pure
function of the old one, and the lemmas prove what the source promises about
those functions. The two loops of the source (`withRetry` and
`sanitizeObject`) are methods with loop invariants, proved equal to their
specification functions.

The interpretation strings are the source's Spanish ones
("Incapacidad funcional Severa", …, "Independencia completa").

## Model

| member | source | states |
|---|---|---|
| `JsObject.Put` | hooks/useScaleAssessment.ts:32-40 | after the spread-update the key reads the new value and every other key reads what it read before |
| `JsObject.PutKeys` | hooks/useScaleAssessment.ts:22-30 | an existing key keeps its place; a new key is added at the end |
| `JsObject.PutUnique` | hooks/useScaleAssessment.ts:35-38 | the update never creates a duplicate key |
| `Text.ContainsIff` | api/config/supabase.ts:485-487 | `includes` holds exactly when the substring occurs at some position |
| `Text.SplitLength` | api/config/supabase.ts:242 | `split` on one character yields one more piece than there are separators |
| `Text.JoinSplit` | api/config/supabase.ts:242 | joining the pieces with the separator gives the string back |
| `Text.SplitPiecesFree` | api/config/supabase.ts:242 | no piece contains the separator |
| `Text.ToLowerIdempotent` | api/config/supabase.ts:628 | lower-casing a lower-cased key changes nothing |
| `Text.ToLowerConcat` | api/config/supabase.ts:628 | lower-casing a key is lower-casing each of its pieces |
| `Barthel.Questions` | data/barthel.ts:12-251 | the ten Barthel items with their ids, texts and options, in source order; its shape is stated by `CatalogueIds`, `CatalogueShape`, `AllWellFormed`, `TotalMaxIsHundred` and `OptionCounts` |
| `Barthel.QuestionIdsDistinct` | data/barthel.ts:12-251 | the ten item ids are pairwise distinct |
| `Barthel.CatalogueIds` | data/barthel.ts:12-251 | the catalogue's ids, in order, are comida … escaleras |
| `Barthel.CatalogueShape` | data/barthel.ts:12-251 | exactly ten items with pairwise distinct ids |
| `Barthel.AllWellFormed` | data/barthel.ts:17-249 | every item's option values are strictly decreasing, end at 0 and are each 0, 5, 10 or 15 |
| `Barthel.MaxPointsIsMaximum` | data/barthel.ts:17-35 | in a well-formed item the first option is worth the most and none is negative |
| `Barthel.TotalMaxIsHundred` | data/barthel.ts:12-251 | the first options add up to 100 |
| `Barthel.OptionCounts` | data/barthel.ts:37-225 | only transferencias and deambulacion have four options and reach 15; lavado and arreglo have two; the rest three |
| `ScaleAssessment.Score` | hooks/useScaleAssessment.ts:44 | the sum of `Object.values(answers)`; what it means is stated by `ScoreIsAnsweredPoints`, `ScoreAfterAnswer` and `BarthelScoreRange` |
| `ScaleAssessment.Interpret` | hooks/useScaleAssessment.ts:45-54 | the Barthel cut-point chain, "" for other scales; stated by `InterpretIsBandLookup`, `InterpretRanges`, `InterpretBoundaries` and `InterpretMonotone` |
| `ScaleAssessment.InterpretIsBandLookup` | hooks/useScaleAssessment.ts:48-54 | the `<` chain equals a lookup in the band table (45, 60, 80, 100) for every score |
| `ScaleAssessment.InterpretRanges` | hooks/useScaleAssessment.ts:45-55 | each Barthel interpretation holds exactly on its half-open score range; any other scale gets "" |
| `ScaleAssessment.InterpretBoundaries` | hooks/useScaleAssessment.ts:48-54 | 44 Severa; 45, 59 Grave; 60, 79 Moderada; 80, 99 Ligera; 100 Independencia completa |
| `ScaleAssessment.InterpretMonotone` | hooks/useScaleAssessment.ts:48-54 | a higher score never gets a more dependent interpretation |
| `ScaleAssessment.ScoreAfterAnswer` | hooks/useScaleAssessment.ts:32-44 | recording an answer changes the score by the new value minus the points recorded before for that question |
| `ScaleAssessment.ScoreIsAnsweredPoints` | hooks/useScaleAssessment.ts:44 | when answers are keyed by item ids, the score is the per-item sum in which unanswered items add nothing |
| `ScaleAssessment.NoAnswersNoPoints` | hooks/useScaleAssessment.ts:44 | with no answers every item contributes 0 |
| `ScaleAssessment.AnsweredPointsBounds` | hooks/useScaleAssessment.ts:44 | answers chosen from well-formed items total between 0 and the items' maximum |
| `ScaleAssessment.ValidAnswersFit` | hooks/useScaleAssessment.ts:32-40 | answers recorded from the form hold, per item, one of that item's option values |
| `ScaleAssessment.ValidAnswersKeys` | hooks/useScaleAssessment.ts:32-40 | answers recorded from the form are keyed by item ids only |
| `ScaleAssessment.BarthelScoreRange` | hooks/useScaleAssessment.ts:44 | any complete or partial Barthel answer object scores between 0 and 100 |
| `ScaleAssessment.MaxAnswersScore` | data/barthel.ts:12-251 | choosing every item's first option scores the catalogue maximum |
| `ScaleAssessment.BarthelExtremes` | hooks/useScaleAssessment.ts:44-53 | all-maximum answers score 100, "Independencia completa"; no answers score 0, "Incapacidad funcional Severa" |
| `ScaleAssessment.AssessmentSession.constructor` | hooks/useScaleAssessment.ts:8-20 | the scale's id, four empty patient fields, no answers, the form step, question 0 |
| `ScaleAssessment.AssessmentSession.UpdatePatientData` | hooks/useScaleAssessment.ts:22-30 | only the patient field is upserted; scale id, answers, step and question unchanged |
| `ScaleAssessment.AssessmentSession.RecordAnswer` | hooks/useScaleAssessment.ts:32-40 | only the answer is upserted; patient fields, step and question unchanged; the answer object keeps one entry per key; the score changes by the new value minus the points recorded before for that question |
| `ScaleAssessment.AssessmentSession.CalculateResult` | hooks/useScaleAssessment.ts:42-65 | returns the answers' sum and its interpretation and writes exactly those two into the draft |
| `ScaleAssessment.AssessmentSession.FinishAssessment` | hooks/useScaleAssessment.ts:67-84 | saves the draft with the computed score and interpretation and id "" through the local log, then moves to the results step whatever the save reported |
| `ScaleAssessment.AssessmentSession.ResetAssessment` | hooks/useScaleAssessment.ts:94-107 | back to the initial draft of the same scale, the form step and question 0 |
| `ScaleAssessment.AssessmentSession.SetStep` | hooks/useScaleAssessment.ts:19 | sets the step only |
| `ScaleAssessment.AssessmentSession.SetCurrentQuestion` | hooks/useScaleAssessment.ts:20 | sets the question index only |
| `LocalAssessments.LocalId` | api/localAssessments.ts:15 | the generated id starts with "local_" and is longer than the prefix and suffix |
| `LocalAssessments.Stamp` | api/localAssessments.ts:13-17 | the saved record has a "local_" id and the save time; every other field is the input's |
| `LocalAssessments.AfterSave` | api/localAssessments.ts:10-34 | the storage after a save: the stamped record in front of the stored list, or no change when a storage call fails; stated by `SavePrepends` |
| `LocalAssessments.AfterClear` | api/localAssessments.ts:39-47 | the storage after a clear: the key removed, or no change when the removal fails; stated by `ClearThenSave` |
| `LocalAssessments.SavePrepends` | api/localAssessments.ts:20-27 | a successful save puts the stamped record first, keeps the earlier records after it in order, grows the log by one and touches no other key; a failed one changes nothing |
| `LocalAssessments.ClearThenSave` | api/localAssessments.ts:39-46 | after clearing, the key is absent, the log reads empty and the next save leaves a one-record log |
| `LocalAssessments.Storage.SaveLocalAssessment` | api/localAssessments.ts:10-34 | returns true exactly when no storage call fails, and leaves the storage as the save specification says |
| `LocalAssessments.Storage.ClearLocalAssessments` | api/localAssessments.ts:39-47 | returns true exactly when the removal succeeds; the key is then gone |
| `ScalesStore.Dedup` | store/scales.ts:17 | the result has no duplicates and the same members as the input |
| `ScalesStore.DedupOfDistinct` | store/scales.ts:17 | a duplicate-free list is its own deduplication |
| `ScalesStore.Without` | store/scales.ts:21 | the filter removes the id, keeps every other member and never grows the list |
| `ScalesStore.WithoutAppend` | store/scales.ts:21 | filtering commutes with concatenation, so the others keep their relative order |
| `ScalesStore.FavoritesAfterAdd` | store/scales.ts:15-18 | `[...new Set([...favorites, id])]`; stated by `AddFavoriteSpec` and `AddFavoriteIdempotent` |
| `ScalesStore.FavoritesAfterRemove` | store/scales.ts:19-22 | the favourites filtered by `favId !== id`; stated by `RemoveFavoriteSpec` |
| `ScalesStore.RecentAfterView` | store/scales.ts:23-26 | the id in front of the others, cut to ten; stated by `AddRecentlyViewedSpec`, `ReviewMovesToFront` and `AddRecentlyViewedIdempotent` |
| `ScalesStore.AddFavoriteSpec` | store/scales.ts:15-18 | the id is a favourite, no duplicates, members are the old ones plus the id; a duplicate-free list holding it is unchanged, otherwise the id is appended |
| `ScalesStore.AddFavoriteIdempotent` | store/scales.ts:15-18 | adding a favourite twice equals adding it once |
| `ScalesStore.RemoveFavoriteSpec` | store/scales.ts:19-22 | every occurrence removed, others kept, no-op when absent, stays duplicate-free |
| `ScalesStore.AddRecentlyViewedSpec` | store/scales.ts:23-26 | the id is first and occurs once, at most ten entries, the rest is the old list without the id cut from the tail, duplicate-freedom kept |
| `ScalesStore.ReviewMovesToFront` | store/scales.ts:25 | re-viewing a present id moves it to the front without growing the list |
| `ScalesStore.AddRecentlyViewedIdempotent` | store/scales.ts:23-26 | viewing the same id twice in a row equals viewing it once |
| `ScalesStore.Preferences.constructor` | store/scales.ts:13-14 | both lists start empty |
| `ScalesStore.Preferences.AddFavorite` | store/scales.ts:15-18 | updates the favourites only, keeping the store invariant |
| `ScalesStore.Preferences.RemoveFavorite` | store/scales.ts:19-22 | updates the favourites only, keeping the store invariant |
| `ScalesStore.Preferences.AddRecentlyViewed` | store/scales.ts:23-26 | updates the recent list only, keeping the store invariant |
| `SettingsStore.Defaults` | store/settingsStore.ts:34-42 | the seven default settings; stated by `DefaultsCoupled` |
| `SettingsStore.Settings.ToggleDarkMode` | store/settingsStore.ts:51 | the settings with darkMode flipped; stated by `ToggleEffects` and `ActionsPreserveCoupling` |
| `SettingsStore.Settings.SetLanguage` | store/settingsStore.ts:53 | the settings with the language set; stated by `SettersIdempotent` |
| `SettingsStore.Settings.SetDateFormat` | store/settingsStore.ts:55 | the settings with the date format set; stated by `SettersIdempotent` |
| `SettingsStore.Settings.SetMeasurementSystem` | store/settingsStore.ts:57 | the settings with the measurement system set; stated by `SettersIdempotent` |
| `SettingsStore.Settings.ToggleNotifications` | store/settingsStore.ts:59-67 | the global flag flipped, both specific flags cleared when it goes off; stated by `ToggleEffects`, `NotificationsOffOn` and `ActionsPreserveCoupling` |
| `SettingsStore.Settings.ToggleReminderNotifications` | store/settingsStore.ts:69-73 | the reminder flag flipped, the global flag forced on per line 72; stated by `ToggleEffects` and `ActionsPreserveCoupling` |
| `SettingsStore.Settings.ToggleUpdateNotifications` | store/settingsStore.ts:75-79 | the update flag flipped, the global flag forced on per line 78; stated by `ToggleEffects` and `ActionsPreserveCoupling` |
| `SettingsStore.Run` | store/settingsStore.ts:51-81 | the settings after a sequence of store actions, reset included; stated by `RunPreservesCoupling` |
| `SettingsStore.DefaultsCoupled` | store/settingsStore.ts:34-42 | the defaults are light mode, es, 24h, metric, all notifications on, and satisfy the coupling |
| `SettingsStore.ActionsPreserveCoupling` | store/settingsStore.ts:51-79 | every action keeps "reminder or update on implies notifications on" |
| `SettingsStore.ToggleEffects` | store/settingsStore.ts:51-79 | dark-mode toggle flips and is an involution; global off clears both specific flags, on changes nothing else; the specific toggles flip their flag and force the global flag on when the new reminder/update state asks for it |
| `SettingsStore.SettersIdempotent` | store/settingsStore.ts:53-57 | each setter changes only its field and is idempotent |
| `SettingsStore.NotificationsOffOn` | store/settingsStore.ts:59-67 | turning the global flag off and on again leaves both specific flags off |
| `SettingsStore.RunPreservesCoupling` | store/settingsStore.ts:34-81 | any sequence of actions, reset included, keeps the coupling |
| `SettingsStore.Store.constructor` | store/settingsStore.ts:44-48 | the store starts at the defaults |
| `SettingsStore.Store.ToggleDarkMode` | store/settingsStore.ts:51 | the new settings are the toggled old ones; invariant kept |
| `SettingsStore.Store.SetLanguage` | store/settingsStore.ts:53 | sets the language; invariant kept |
| `SettingsStore.Store.SetDateFormat` | store/settingsStore.ts:55 | sets the date format; invariant kept |
| `SettingsStore.Store.SetMeasurementSystem` | store/settingsStore.ts:57 | sets the measurement system; invariant kept |
| `SettingsStore.Store.ToggleNotifications` | store/settingsStore.ts:59-67 | the global toggle; invariant kept |
| `SettingsStore.Store.ToggleReminderNotifications` | store/settingsStore.ts:69-73 | the reminder toggle; invariant kept |
| `SettingsStore.Store.ToggleUpdateNotifications` | store/settingsStore.ts:75-79 | the update toggle; invariant kept |
| `SettingsStore.Store.ResetSettings` | store/settingsStore.ts:81 | all seven fields back to the defaults |
| `ErrorHandler.NormalizeCode` | hooks/useErrorHandler.ts:27 | a code is kept exactly when present and non-empty, else null |
| `ErrorHandler.Raised` | hooks/useErrorHandler.ts:23-29 | the record `setError` stores; stated by `RaisedSpec` and `StatesConsistent` |
| `ErrorHandler.Handled` | hooks/useErrorHandler.ts:39-51 | the record `handleError` stores; stated by `HandledSpec` and `StatesConsistent` |
| `ErrorHandler.StatesConsistent` | hooks/useErrorHandler.ts:17-37 | every reachable record holds a message exactly when it shows an error, and no code without an error |
| `ErrorHandler.RaisedSpec` | hooks/useErrorHandler.ts:23-29 | `setError` shows the error with the message; an empty code becomes null |
| `ErrorHandler.HandledSpec` | hooks/useErrorHandler.ts:39-51 | an Error gives its message, a string itself, anything else the fixed Spanish message; always an error, never a code |
| `ErrorHandler.ErrorHolder.constructor` | hooks/useErrorHandler.ts:17-21 | no error, no message, no code |
| `ErrorHandler.ErrorHolder.SetError` | hooks/useErrorHandler.ts:23-29 | stores the `setError` record |
| `ErrorHandler.ErrorHolder.ClearError` | hooks/useErrorHandler.ts:31-37 | restores the initial record |
| `ErrorHandler.ErrorHolder.HandleError` | hooks/useErrorHandler.ts:39-51 | stores the classified message with no code |
| `Permissions.RolePermissions` | api/config/supabase.ts:198-216 | exactly patient, practitioner and admin have a list |
| `Permissions.HasPermission` | api/config/supabase.ts:190-219 | `hasPermission` for a given role lookup result; stated by `HasPermissionSpec`, `RankMonotone`, `AdminOnly` and `DataRetentionNeverGranted` |
| `Permissions.HasPermissionSpec` | api/config/supabase.ts:190-219 | no role grants nothing; a role grants a permission exactly when it is known and lists it |
| `Permissions.PermissionsNested` | api/config/supabase.ts:198-216 | patient ⊆ practitioner ⊆ admin, each strictly longer |
| `Permissions.RankMonotone` | api/config/supabase.ts:198-218 | a more senior role holds every permission of a junior one |
| `Permissions.AdminOnly` | api/config/supabase.ts:207-216 | only admin may manage users or view audit logs |
| `Permissions.DataRetentionNeverGranted` | api/config/supabase.ts:809 | no role holds manage_data_retention |
| `ApiErrors.IsRetryable` | api/config/supabase.ts:478-504 | `isRetryableError` in its own order of tests; stated by `RetryableSpec` |
| `ApiErrors.RetryableSpec` | api/config/supabase.ts:478-504 | null is not retryable; an error is retryable exactly for a retryable code, a message mentioning network, timeout or connection, or a 5xx status |
| `ApiErrors.TableMessagesNonEmpty` | api/config/supabase.ts:343-369 | every table message is non-empty, and general/unknown reads "An unknown error occurred." |
| `ApiErrors.HandleApiError` | api/config/supabase.ts:379-419 | the processed record, whether it is thrown, and whether a security event is logged; stated by `HandleApiErrorSpec`, `CodelessIsUnknown`, `SecurityCodes`, `HandleApiErrorIdempotent` and `DefaultArguments` |
| `ApiErrors.HandleApiErrorSpec` | api/config/supabase.ts:379-419 | code, status and details default to general/unknown, 500 and null; table message for a listed code, else own or custom message; thrown exactly when asked, same record either way |
| `ApiErrors.CodelessIsUnknown` | api/config/supabase.ts:385-408 | a code-less error always gets the unknown code and message and is not logged as a security event |
| `ApiErrors.SecurityCodes` | api/config/supabase.ts:393-404 | auth codes, row-level-security and storage authorisation errors are logged as security events |
| `ApiErrors.HandleApiErrorIdempotent` | api/config/supabase.ts:385-412 | handling a processed record again gives the same record |
| `ApiErrors.DefaultStatusIsRetryable` | api/config/supabase.ts:387 | the default status 500 makes a processed record retryable |
| `ApiErrors.DefaultArguments` | api/config/supabase.ts:379-383 | with the defaults (`'Error in operation'`, no throw) the record is returned; the custom message appears exactly for an unlisted code whose error has no message of its own (or that very message); a code-less error reads "An unknown error occurred." |
| `Retry.RunFrom` | api/config/supabase.ts:436-469 | the loop from one attempt on, as a recursion; stated by `RunFromSpec` |
| `Retry.Run` | api/config/supabase.ts:429-470 | the whole run of `withRetry`; stated by `RunSpec`, `FirstSuccessReturned`, `FatalFirstAttempt` and `DefaultRetryPolicy` |
| `Retry.RunFromSpec` | api/config/supabase.ts:436-469 | from any attempt: bounded calls, earlier calls failed retryably, the last call decides the response, stop only at a fatal error or the limit, doubling waits |
| `Retry.RunSpec` | api/config/supabase.ts:429-470 | at most maxRetries + 1 calls (none when negative), first success returned, failure returns the last error, wait k is initialDelay · 2^k |
| `Retry.FirstSuccessReturned` | api/config/supabase.ts:436-442 | a success after only retryable failures is returned after exactly its number of calls |
| `Retry.FatalFirstAttempt` | api/config/supabase.ts:447-452 | a non-retryable first error ends the run after one call with no wait |
| `Retry.DefaultRetryPolicy` | api/config/supabase.ts:40-41 | with the default arguments (`MAX_RETRIES` 3, `RETRY_DELAY` 1000) at most four calls, and the waits are a prefix of 1000, 2000, 4000 ms |
| `Retry.WithRetry` | api/config/supabase.ts:429-470 | the loop's response, call count and waits are those of the run specification |
| `LogSanitizer.IsSensitiveKey` | api/config/supabase.ts:607-628 | `sensitiveKeys.some(sk => key.toLowerCase().includes(sk))`; stated by `SensitiveKeyMatch` and `SensitiveAnywhere` |
| `LogSanitizer.SensitiveKeyMatch` | api/config/supabase.ts:628 | a key is sensitive exactly when its lower-case form is, and exactly when one of the ten words occurs at some position of that form |
| `LogSanitizer.SensitiveAnywhere` | api/config/supabase.ts:628 | any key holding one of the words, in any mix of cases, after any prefix and before any suffix, is sensitive |
| `LogSanitizer.SensitiveKeyExamples` | api/config/supabase.ts:607-628 | two examples: "Password" and "homeAddress" are sensitive |
| `LogSanitizer.SanitizedField` | api/config/supabase.ts:626-634 | one entry after the loop body: redacted, recursed into, or kept; stated by `SanitizedEntries` |
| `LogSanitizer.Sanitized` | api/config/supabase.ts:623-638 | same length, and each entry is sanitised on its own |
| `LogSanitizer.SanitizedKeys` | api/config/supabase.ts:624-626 | the keys are kept, in place |
| `LogSanitizer.SanitizedEntries` | api/config/supabase.ts:626-635 | sensitive entries become "[REDACTED]", plain entries are kept, nested objects keep their keys |
| `LogSanitizer.SanitizedHasNoLeaks` | api/config/supabase.ts:623-638 | no sensitive key at any depth holds anything but "[REDACTED]" |
| `LogSanitizer.SanitizedFixpoint` | api/config/supabase.ts:623-638 | a record is unchanged exactly when it leaks nothing |
| `LogSanitizer.SanitizedIdempotent` | api/config/supabase.ts:606-641 | sanitising twice equals sanitising once |
| `LogSanitizer.SanitizeObject` | api/config/supabase.ts:623-638 | the loop-and-recurse copy equals the sanitising specification |
| `LogSanitizer.SanitizeLogData` | api/config/supabase.ts:606-641 | the result is the sanitised record: no leaks, same keys |
| `Token.WellShaped` | api/config/supabase.ts:237-243 | the two structural checks of `validateToken`; stated by `ShapeIsTwoDots` and `RejectedShapes` |
| `Token.PartsOf` | api/config/supabase.ts:242-246 | the three parts of a well-shaped token; stated by `PartsRebuildToken` |
| `Token.ShapeIsTwoDots` | api/config/supabase.ts:237-243 | the token passes the structural checks exactly when it is non-empty with exactly two dots |
| `Token.PartsRebuildToken` | api/config/supabase.ts:242-246 | the three parts contain no dot and rebuild the token |
| `Token.RejectedShapes` | api/config/supabase.ts:238-243 | the empty token and any token without exactly two dots are rejected |

## Left out

- PDF export (`exportResults`, api/export/pdf.ts): an HTML template handed to the platform's print and share modules.
- Persistence middleware and JSON serialisation: the stores are in-memory state; AsyncStorage is a map from key to a list of records, so a stored value that does not parse is modelled as a failing read.
- Identifiers and clocks: the save time and the random id suffix of a local record, and the assessment's date, are inputs.
- LocalAssessments.Storage.SaveLocalAssessment: where a storage call fails is an input; a failing write is taken to leave the stored list unchanged.
- ScaleAssessment.AssessmentSession.FinishAssessment: React's asynchronous state updates are not modelled; the stale read of the draft in `finishAssessment` is modelled by saving the draft as it was before `calculateResult`.
- ScaleAssessment.Score: JavaScript numbers are modelled as unbounded integers, and the sum is taken from the front (integer addition is associative).
- Retry.WithRetry: the operation is the list of its outcomes and must supply one for every attempt the loop may make; waits are recorded, not slept; a thrown value that is not an error object is not modelled.
- Retry.RunSpec: `maxRetries` is an integer; a fractional limit is not modelled.
- ApiErrors.HandleApiError: console output, the audit insert and the user lookup of the security log are left out; only whether a security event is logged is modelled. Error fields are held as strings and an integer, a missing field as its falsy value, and `details` as a string.
- JsObject.PutKeys: the key order it states is JavaScript's only for keys that are not array indices; JavaScript lists index-like keys (such as "3") first, in ascending numeric order, and the model keeps every key in insertion order. No score or lookup depends on the order, since the score is a sum.
- Keys that JavaScript objects inherit (such as "constructor") are not modelled in the role table or in `ERROR_CODES`.
- LogSanitizer.IsSensitiveKey: lower-casing is ASCII only. Arrays inside a log record (turned into index-keyed objects by the spread) are not modelled.
- Token: only the structural part of `validateToken` is modelled; decoding the payload, its expiry against the clock and its required claims are left out.
- Client construction, sign-in and role queries, security and HIPAA logging, data retention, secure storage, session timeouts and key rotation in api/config/supabase.ts: remote calls, platform APIs, timers and the clock.
- All screens and UI components: rendering, navigation and styling only.
