# Speculative page generation: a Dafny model

Ambia prepares answers before a user asks. Three workers run on a timer against
one MySQL database:

- **prediction_scheduler (the producer).** It summarises a user's recent
  activity for a pattern-detection model, and keeps the patterns the model is
  at least 60% sure of. It admits those it is at least 70% sure of into
  `generation_queue`, unless an equivalent job is already pending or an
  equivalent page is already cached.
- **claude_generator (the consumer).** It claims up to ten due jobs, highest
  priority first. For each one it asks a language model for UI components and
  stores them in `page_cache`, which is keyed by a fingerprint of the user and
  the normalised query. A failed job is retried up to three attempts, then
  marked failed.
- **ambient_event_detector.** It builds a context for each active user and
  asks a language model for time-sensitive events. Each detected event is
  stored in `ambient_events` with its defaults filled in.

The model keeps the tables as sequences of rows held by one `Store.Database`
object, which the workers' methods receive and modify, as the Python functions
receive their connection.

- Each write is specified by a pure function of the tables before it.
- Each method promises exactly that function's result, and its loops are
  proved against those functions.
- The lemmas state what the source promises about those functions.
- `now` is an integer number of seconds, and identifiers drawn from `uuid4()`
  are fresh numbers taken from `Database.nextId`.
- The language models, the activity fetches and the success of each INSERT are
  parameters.

Modules:

| module | contents |
|---|---|
| `Common` | `Option`, `Field` (a JSON or row field as `dict.get` sees it: missing, null or present), parsed times, scores, `Take` (`s[:n]`), `Tally` (a dictionary of counts) |
| `Fingerprint` | `generate_cache_key`: `lower()`, `strip()`, a stand-in for MD5, the 16-character prefix |
| `Store` | the row types, well-formedness of the tables, and the `Database` class |
| `Activity` | the projections of activity_log rows that all three workers count |
| `PendingJobs` | `get_pending_jobs`: filter, sort, take ten |
| `Generator` | `update_job_status`, `handle_job_failure`, `store_in_page_cache`, `get_user_context`, and the job loop of `lambda_handler` |
| `Scheduler` | the 0.6 filter, `queue_predictions`, and `build_activity_summary` |
| `Ambient` | `get_time_of_day`, `store_ambient_event`, `get_user_context`, and the user loop of `lambda_handler` |
| `Pipeline` | how producer and consumer meet in the store |

Where the code departs from its evident intent, the model follows the code. These
differences are stated as properties:

- The claim is not a compare-and-swap. A job is set to `processing` whatever
  its status (`Generator.ClaimIsUnconditional`).
- A job's priority is `int(confidence * 100)`, which truncates: 0.855 gives 85
  (`Scheduler.PriorityTruncates`).
- An unparseable `trigger_time` is not defaulted. The candidate is skipped
  (`Scheduler.TriggerTimeDefaults`).
- On a fresh insert, `store_in_page_cache` returns the new row's id, not the
  fingerprint. Only the conflict path returns the fingerprint
  (`Generator.UpsertOutcome`).
- A retried job is eligible again at once, because nothing delays it
  (`Generator.RetryIsImmediatelyEligible`).
- A pattern without `predicted_action` is never caught by the pending-job
  duplicate check, because SQL `=` against NULL never matches
  (`Scheduler.MissingActionNeverDeduplicated`).
- The generator caches under `predicted_query`, or `predicted_action` when
  there is no query, but the scheduler checks the cache only for a non-empty
  `predicted_query`. So a page generated from the action fallback never blocks
  re-admission. `Pipeline.GeneratedPageBlocksReadmission` therefore requires a
  non-empty query.
- Rows that `store_ambient_event` writes are `pending`. The detector's context
  reads only `active` rows, so its own output never reaches its next context
  (`Ambient.StoredEventIsNotActive`).
- The detector's handler is modelled as written. A detected event without a
  `title` is stored, then the log line raises. That user counts as an error,
  keeps the rows already stored, and skips the rest of their events
  (`Ambient.MissingTitleAbortsUser`, `Ambient.RaisingUserIsCounted`; see
  Findings).

## Model

| member | source | states |
|---|---|---|
| `Fingerprint.ToLower` | backend/lambda/claude_generator/lambda_function.py:450 | lower-casing keeps the length |
| `Fingerprint.StripStartShape` | backend/lambda/claude_generator/lambda_function.py:450 | `lstrip` removes exactly a leading run of white space and leaves a non-blank first character |
| `Fingerprint.StripEndShape` | backend/lambda/claude_generator/lambda_function.py:450 | `rstrip` removes exactly a trailing run of white space and leaves a non-blank last character |
| `Fingerprint.StripShape` | backend/lambda/claude_generator/lambda_function.py:450 | the result of `strip()` neither starts nor ends with white space and uses only characters of the input |
| `Fingerprint.StripStripped` | backend/lambda/claude_generator/lambda_function.py:450 | `strip()` is idempotent |
| `Fingerprint.LowerOfStrippedLower` | backend/lambda/claude_generator/lambda_function.py:450 | stripping a lower-cased text leaves it lower-cased |
| `Fingerprint.StripPadded` | backend/lambda/claude_generator/lambda_function.py:450 | `strip()` of a text padded with white space on both sides is `strip()` of the text |
| `Fingerprint.ToLowerConcat` | backend/lambda/claude_generator/lambda_function.py:450 | lower-casing distributes over concatenation |
| `Fingerprint.ToLowerIdempotent` | backend/lambda/claude_generator/lambda_function.py:450 | lower-casing twice is lower-casing once |
| `Fingerprint.NormalizeIdempotent` | backend/lambda/claude_generator/lambda_function.py:450-453 | normalising is idempotent, so a normalised query keys the same slot as the original |
| `Fingerprint.Md5Hex` | backend/lambda/claude_generator/lambda_function.py:452 | the digest text is 32 lower-case hexadecimal digits |
| `Fingerprint.CacheKey` | backend/lambda/claude_generator/lambda_function.py:447-453 | the key is 16 lower-case hexadecimal characters and depends only on the user id and the normalised query (the scheduler's copy at prediction_scheduler 418-424 is identical) |
| `Fingerprint.KeyIgnoresPadding` | backend/lambda/claude_generator/lambda_function.py:450-453 | queries that differ only in surrounding white space share a key |
| `Fingerprint.KeyIgnoresCase` | backend/lambda/claude_generator/lambda_function.py:450-453 | queries that differ only in letter case share a key |
| `Common.Take` | backend/lambda/claude_generator/lambda_function.py:264 | `s[:n]` is the prefix of length min(len(s), n) |
| `Common.TakeSnoc` | backend/lambda/prediction_scheduler/lambda_function.py:302-303 | appending only while fewer than n are held leaves the first n elements of the whole list |
| `Common.TallySnoc` | backend/lambda/prediction_scheduler/lambda_function.py:288 | `counts[k] = counts.get(k, 0) + 1` on the tally of a list gives the tally of the list with k appended |
| `Common.TallyCounts` | backend/lambda/prediction_scheduler/lambda_function.py:285-298 | the count of each key equals its number of occurrences, and the dictionary holds exactly the keys that occur |
| `Common.TallySum` | backend/lambda/prediction_scheduler/lambda_function.py:285-288 | the counts add up to the number of keys counted |
| `Common.SumCountsUpdate` | backend/lambda/prediction_scheduler/lambda_function.py:288 | updating one count changes the total by the difference |
| `Common.Trunc` | backend/lambda/prediction_scheduler/lambda_function.py:398 | `int()` of a float truncates toward zero on both signs |
| `Store.WellFormedUnderLargerId` | backend/lambda/prediction_scheduler/lambda_function.py:378 | drawing a further fresh id keeps every table's ids below the counter |
| `Activity.TruthyTexts` | backend/lambda/claude_generator/lambda_function.py:255-257 | the kept texts are exactly the non-empty present values, and no more of them than there are fields |
| `Activity.TruthyTextsAppend` | backend/lambda/claude_generator/lambda_function.py:255-257 | the filter commutes with concatenation, so input order is kept |
| `Activity.ActionKeys` | backend/lambda/prediction_scheduler/lambda_function.py:287 | one key per activity; a missing action type is 'unknown', a null one is None |
| `Activity.WithQuery` | backend/lambda/ambient_event_detector/lambda_function.py:289 | exactly the activities with a non-empty query |
| `Activity.RecentQueries` | backend/lambda/prediction_scheduler/lambda_function.py:300-303 | the first ten non-empty queries in fetch order, all of them when there are fewer |
| `Activity.ProjectionsSnoc` | backend/lambda/claude_generator/lambda_function.py:255-261 | one more activity extends each projection by that activity's part |
| `Activity.QueriesSnoc` | backend/lambda/claude_generator/lambda_function.py:256-257 | the loop step that appends a non-empty query |
| `Activity.TimesOfDayTallySnoc` | backend/lambda/claude_generator/lambda_function.py:259-261 | the loop step that counts a time of day that is set |
| `Activity.DaysOfWeekTallySnoc` | backend/lambda/prediction_scheduler/lambda_function.py:296-298 | the loop step that counts a day of the week that is set |
| `Activity.ActionKeysTallySnoc` | backend/lambda/prediction_scheduler/lambda_function.py:287-288 | the loop step that counts every action type |
| `PendingJobs.EligibleRows` | backend/lambda/claude_generator/lambda_function.py:215-218 | a row is kept if and only if it is queued, due, unexpired and has attempts left |
| `PendingJobs.Insert` | backend/lambda/claude_generator/lambda_function.py:219 | inserting into a sorted list keeps it sorted and adds exactly that row |
| `PendingJobs.SortRows` | backend/lambda/claude_generator/lambda_function.py:219 | the result is sorted by priority descending, then scheduled time ascending, and is a permutation of the input |
| `PendingJobs.SelectJobs` | backend/lambda/claude_generator/lambda_function.py:209-222 | at most LIMIT rows; every selected row is an eligible row of the table; the selection is in claim order (completeness is `SelectionIsTopK`) |
| `PendingJobs.SelectJobsUnique` | backend/lambda/claude_generator/lambda_function.py:209-222 | a table with unique ids yields a selection without a repeated job |
| `PendingJobs.SelectionIsTopK` | backend/lambda/claude_generator/lambda_function.py:219-221 | an eligible row is left out only when the limit is reached, and no row left out sorts strictly before a selected one |
| `PendingJobs.IneligibleNeverSelected` | backend/lambda/claude_generator/lambda_function.py:215-218 | a job that is not queued, not due, expired or out of attempts is never selected |
| `PendingJobs.AllEligibleExample` | backend/lambda/claude_generator/lambda_function.py:215-218 | three eligible rows all pass the WHERE clause, in table order |
| `PendingJobs.SortExample` | backend/lambda/claude_generator/lambda_function.py:219 | priorities 90, 50, 90 with the second 90 scheduled earlier sort as that 90, the first 90, then the 50 |
| `PendingJobs.ClaimOrderExample` | backend/lambda/claude_generator/lambda_function.py:219-220 | priorities 90, 50, 90 with the second 90 scheduled earlier, LIMIT 2: the two 90s, earlier first |
| `PendingJobs.SelectPending` | backend/lambda/claude_generator/lambda_function.py:209-222 | `get_pending_jobs`: the selection with LIMIT 10; what it holds is stated by `SelectJobs`, `SelectionIsTopK` and `IneligibleNeverSelected` |
| `Generator.WithStatus` | backend/lambda/claude_generator/lambda_function.py:390-414 | only the row with the given id changes, and it takes the new status; rows keep their places and ids |
| `Generator.StatusUpdateColumns` | backend/lambda/claude_generator/lambda_function.py:393-413 | with a result key: status, key and completion time; for `processing`: status and start time; otherwise: status alone; no other column |
| `Generator.ClaimIsUnconditional` | backend/lambda/claude_generator/lambda_function.py:401-407 | setting `processing` succeeds from any status |
| `Generator.UpdateJobStatus` | backend/lambda/claude_generator/lambda_function.py:390-414 | the queue becomes `WithStatus` of the old queue; the other tables are unchanged |
| `Generator.AfterFailure` | backend/lambda/claude_generator/lambda_function.py:419-442 | attempts become prior + 1; failed if and only if that reaches 3, with the first 500 characters of the message and a completion time; otherwise queued with schedule and validity untouched |
| `Generator.WithFailure` | backend/lambda/claude_generator/lambda_function.py:417-444 | only the job's row changes, its attempts taken from the selection snapshot plus one |
| `Generator.RetryIsImmediatelyEligible` | backend/lambda/claude_generator/lambda_function.py:434-442 | a re-queued job is eligible again at the same instant |
| `Generator.HandleJobFailure` | backend/lambda/claude_generator/lambda_function.py:417-444 | the queue becomes `WithFailure` of the old queue; the other tables are unchanged |
| `Generator.QueryOf` | backend/lambda/claude_generator/lambda_function.py:335 | `predicted_query`, else `predicted_action`, else ''; None exactly when the value found is null |
| `Generator.RelevanceOf` | backend/lambda/claude_generator/lambda_function.py:341 | the pattern's confidence, 0.7 when missing |
| `Generator.Upsert` | backend/lambda/claude_generator/lambda_function.py:346-387 | the INSERT … ON DUPLICATE KEY UPDATE; its effect is stated by `UpsertOutcome` and `UpsertKeepsWellFormed` |
| `Generator.UpsertOutcome` | backend/lambda/claude_generator/lambda_function.py:346-387 | exactly one row for (user, key) afterwards, holding the new components and relevance and valid 30 minutes; on conflict it is overwritten in place with creation time now, keeping its id, key and query, and the key is returned; otherwise one row is appended, with id `nextId`, the query, type 'prediction' and creation time now, and that id is returned; other rows untouched; uniqueness kept |
| `Generator.UpsertKeepsWellFormed` | backend/lambda/claude_generator/lambda_function.py:346-387 | an upsert keeps the cache's ids and (user, key) pairs unique and never lowers the id counter |
| `Generator.UpsertIsLive` | backend/lambda/claude_generator/lambda_function.py:344 | the stored page is live for the scheduler's cache check until 30 minutes have passed |
| `Generator.UpsertTwiceLastWriterWins` | backend/lambda/claude_generator/lambda_function.py:369-387 | two writes for equivalent queries leave one row holding the second write; the second write returns the key |
| `Generator.StoreInPageCache` | backend/lambda/claude_generator/lambda_function.py:327-387 | the cache and id counter become the upsert's result, and the returned reference is the upsert's; nothing is written when the key computation raises on a null query |
| `Generator.CollectActivity` | backend/lambda/claude_generator/lambda_function.py:252-261 | the loop yields all non-empty queries in order and the tally of the times of day that are set |
| `Generator.CollectOne` | backend/lambda/claude_generator/lambda_function.py:256-261 | one pass of that loop appends a non-empty query and counts a time of day that is set, and nothing else |
| `Generator.ContextOf` | backend/lambda/claude_generator/lambda_function.py:246-267 | what `get_user_context` returns for the fetched rows; stated by `ContextSummarises` |
| `Generator.GetUserContext` | backend/lambda/claude_generator/lambda_function.py:246-267 | "No recent activity" for no rows; otherwise the first ten queries, the time-of-day tally and the row count |
| `Generator.ContextSummarises` | backend/lambda/claude_generator/lambda_function.py:248-267 | the context is empty exactly when no rows were fetched; the first ten queries, all of them when there are fewer; each count equals its occurrences; total = rows |
| `Generator.ProcessJob` | backend/lambda/claude_generator/lambda_function.py:112-159 | one iteration of the job loop: claim, context, generate, then store and complete or fail; stated by `ProcessJobOutcome` and `ProcessJobFrame` |
| `Generator.RunJobs` | backend/lambda/claude_generator/lambda_function.py:101-159 | the job loop over the claimed jobs; stated by `RunCounts`, `RunFrame`, `RunResolvesEveryJob` and `RunKeepsAttemptsBounded` |
| `Generator.ProcessJobOutcome` | backend/lambda/claude_generator/lambda_function.py:112-159 | one job changes only its own row and leaves it completed with a key, re-queued with one more attempt, or failed at the maximum |
| `Generator.ProcessJobFrame` | backend/lambda/claude_generator/lambda_function.py:112-159 | one job keeps the queue's length, ids and every other row, and the cache well formed |
| `Generator.RunCounts` | backend/lambda/claude_generator/lambda_function.py:101-159 | jobs_processed grows with pages_generated, and pages_generated + errors grows by the number of jobs |
| `Generator.RunFrame` | backend/lambda/claude_generator/lambda_function.py:106-159 | a run adds and removes no queue rows and leaves unclaimed rows untouched |
| `Generator.RunResolvesEveryJob` | backend/lambda/claude_generator/lambda_function.py:106-159 | every distinct claimed job ends completed, re-queued or failed |
| `Generator.RunKeepsAttemptsBounded` | backend/lambda/claude_generator/lambda_function.py:420-433 | attempt counters never pass 3, and a failed job has exactly 3 |
| `Generator.SelectedAreSnapshots` | backend/lambda/claude_generator/lambda_function.py:209-222 | a selected job equals the only row with its id |
| `Generator.RunSummary` | backend/lambda/claude_generator/lambda_function.py:86-159 | over the selection: jobs_processed = pages_generated, pages_generated + errors = selected jobs, each selected job resolved, others untouched, attempts bounded |
| `Generator.RunSummaryRows` | backend/lambda/claude_generator/lambda_function.py:106-159 | over distinct snapshot jobs with attempts left: each job's row is resolved, every other row is untouched and attempts stay bounded |
| `Generator.ProcessOne` | backend/lambda/claude_generator/lambda_function.py:112-159 | the tables and outcome are those of `ProcessJob` |
| `Generator.ProcessJobs` | backend/lambda/claude_generator/lambda_function.py:101-159 | the loop's tables and counters are those of `RunJobs` over the claimed jobs |
| `Generator.RunOnce` | backend/lambda/claude_generator/lambda_function.py:86-174 | the run over `get_pending_jobs`'s selection; zero counters when it is empty |
| `Scheduler.KeepConfident` | backend/lambda/prediction_scheduler/lambda_function.py:258-261 | keeps exactly the patterns with confidence >= 0.6, a missing one counting as 0; raises (None) exactly when some confidence is not a number |
| `Scheduler.KeepConfidentAppend` | backend/lambda/prediction_scheduler/lambda_function.py:258-261 | the filter commutes with concatenation, so the original order is kept |
| `Scheduler.Priority` | backend/lambda/prediction_scheduler/lambda_function.py:398 | for a non-negative confidence, the greatest integer not above confidence * 100 |
| `Scheduler.PriorityTruncates` | backend/lambda/prediction_scheduler/lambda_function.py:398 | 0.855 gives 85, not 86 |
| `Scheduler.TriggerOf` | backend/lambda/prediction_scheduler/lambda_function.py:342-347 | the parsed trigger time, now + 30 minutes when missing or empty, and an error exactly when unparseable |
| `Scheduler.Admit` | backend/lambda/prediction_scheduler/lambda_function.py:332-413 | one candidate of `queue_predictions`: the checks in order, then the INSERT; stated by `AdmissionRule` and the lemmas after it |
| `Scheduler.AdmissionRule` | backend/lambda/prediction_scheduler/lambda_function.py:332-413 | a candidate is admitted if and only if its confidence >= 0.7, its trigger time parses, neither duplicate check matches and the insert succeeds; the row is queued, type prediction, 0 attempts, truncated priority, need = predicted_action, scheduled at the trigger, valid one hour after |
| `Scheduler.BelowThresholdNeverQueued` | backend/lambda/prediction_scheduler/lambda_function.py:333-338 | a confidence below 0.7, or a missing one, never produces a row |
| `Scheduler.TriggerTimeDefaults` | backend/lambda/prediction_scheduler/lambda_function.py:342-347 | no trigger time: scheduled 30 minutes ahead and valid until 90 minutes ahead; an unparseable one: skipped |
| `Scheduler.ReadmissionIsDeduplicated` | backend/lambda/prediction_scheduler/lambda_function.py:349-360 | re-admitting an admitted pattern with a predicted action, with or without a trigger time, finds the pending row while its scheduled time lies ahead |
| `Scheduler.MissingActionNeverDeduplicated` | backend/lambda/prediction_scheduler/lambda_function.py:350-356 | without a predicted action, the pending-job check never matches |
| `Scheduler.EmptyQueryIgnoresCache` | backend/lambda/prediction_scheduler/lambda_function.py:363-364 | with an empty or missing predicted query, the decision does not depend on page_cache |
| `Scheduler.LiveCacheBlocks` | backend/lambda/prediction_scheduler/lambda_function.py:363-375 | a live cache row under the fingerprint of an equivalent query turns the candidate away |
| `Scheduler.AdmitAll` | backend/lambda/prediction_scheduler/lambda_function.py:324-415 | the loop of `queue_predictions`; stated by `AdmitAllAppends`, `AdmitAllRows`, `AdmitAllIdsIncrease` and `AdmitAllStep` |
| `Scheduler.AdmitAllAppends` | backend/lambda/prediction_scheduler/lambda_function.py:324-415 | only appends; old rows unchanged; queued_count = rows appended <= candidates |
| `Scheduler.AdmitAllRows` | backend/lambda/prediction_scheduler/lambda_function.py:324-415 | each appended row is an admitted candidate of this user with a fresh id |
| `Scheduler.AdmitAllIdsIncrease` | backend/lambda/prediction_scheduler/lambda_function.py:324-415 | the ids of the appended rows increase in insertion order |
| `Scheduler.AdmittedRowOf` | backend/lambda/prediction_scheduler/lambda_function.py:377-404 | an admitted candidate's row is a queued prediction job with the next fresh id, its priority and its one-hour window |
| `Scheduler.AdmitAllStep` | backend/lambda/prediction_scheduler/lambda_function.py:332-413 | one pass of the loop: a non-numeric confidence ends it; otherwise an admitted row is appended, an attempted insert uses up an id, and the rest of the candidates follow |
| `Scheduler.AppendFresh` | backend/lambda/prediction_scheduler/lambda_function.py:378-404 | a row under the next fresh id keeps the queue well formed |
| `Scheduler.FilteredNeverRaises` | backend/lambda/prediction_scheduler/lambda_function.py:333-336 | candidates that passed the 0.6 filter never make the loop raise |
| `Scheduler.SkippedCandidateIsTransparent` | backend/lambda/prediction_scheduler/lambda_function.py:336-375 | a candidate skipped below threshold, for a bad time or as a duplicate leaves no trace on the rest of the run |
| `Scheduler.QueuePredictions` | backend/lambda/prediction_scheduler/lambda_function.py:324-415 | the queue, id counter, count and raise flag are those of `AdmitAll`; cache and events unchanged |
| `Scheduler.QueueAt` | backend/lambda/prediction_scheduler/lambda_function.py:332-413 | one pass of the loop at candidate i leaves the rest of the loop's result unchanged, or ends it by raising |
| `Scheduler.QueueOne` | backend/lambda/prediction_scheduler/lambda_function.py:333-408 | the checks in the source's order, then the INSERT: the outcome is `Admit`'s, the row is appended only when admitted, an id is drawn for every attempted insert, cache and events unchanged |
| `Scheduler.SummaryOf` | backend/lambda/prediction_scheduler/lambda_function.py:274-321 | `build_activity_summary` as a value; stated by `SummaryCounts` |
| `Scheduler.SummaryCounts` | backend/lambda/prediction_scheduler/lambda_function.py:274-303 | the action counts add up to the number of activities, with missing types under 'unknown'; every count equals its occurrences; the recent queries are the first ten, all of them when there are fewer |
| `Scheduler.CountAllDistributions` | backend/lambda/prediction_scheduler/lambda_function.py:285-303 | the loop's four accumulators are the three tallies and the first ten queries |
| `Scheduler.CountActionStep` | backend/lambda/prediction_scheduler/lambda_function.py:287-288 | one record's step on the action counts |
| `Scheduler.CountTimeOfDayStep` | backend/lambda/prediction_scheduler/lambda_function.py:291-293 | one record's step on the time-of-day counts |
| `Scheduler.CountDayOfWeekStep` | backend/lambda/prediction_scheduler/lambda_function.py:296-298 | one record's step on the day-of-week counts |
| `Scheduler.CountQueryStep` | backend/lambda/prediction_scheduler/lambda_function.py:301-303 | appending only while fewer than ten are held keeps the first ten queries |
| `Scheduler.BuildActivitySummary` | backend/lambda/prediction_scheduler/lambda_function.py:274-321 | the summary is `SummaryOf` the activity: "No activity found" for none |
| `Ambient.HourOf` | backend/lambda/ambient_event_detector/lambda_function.py:321 | the hour is in 0..23 |
| `Ambient.TimeOfDayAt` | backend/lambda/ambient_event_detector/lambda_function.py:319-329 | morning if and only if the hour is in [5, 12), afternoon [12, 17), evening [17, 21), night otherwise |
| `Ambient.HourAdvances` | backend/lambda/ambient_event_detector/lambda_function.py:321 | a day later the hour is the same; an hour later it is the next, 23 wrapping to 0 |
| `Ambient.TimeOfDayCycle` | backend/lambda/ambient_event_detector/lambda_function.py:319-329 | the bucket repeats daily, and an hour later it is the same or the following one |
| `Ambient.StoredTime` | backend/lambda/ambient_event_detector/lambda_function.py:399-412 | a time is stored if and only if it parses; an unparseable one becomes NULL without aborting |
| `Ambient.DataText` | backend/lambda/ambient_event_detector/lambda_function.py:394 | a missing data object is stored as '{}' |
| `Ambient.EventRowOf` | backend/lambda/ambient_event_detector/lambda_function.py:385-443 | missing fields default to notification, medium, '', '{}' and 0.7; status pending, source claude; valid until end + 15 minutes when the end parses, now + 1 hour otherwise |
| `Ambient.StoreEvent` | backend/lambda/ambient_event_detector/lambda_function.py:385-452 | `store_ambient_event` on the tables; stated by `StoreEventOutcome` |
| `Ambient.StoreEventOutcome` | backend/lambda/ambient_event_detector/lambda_function.py:385-452 | success appends one row with the returned, unused id; failure returns None and leaves the table unchanged; one id drawn either way |
| `Ambient.StoredEventIsNotActive` | backend/lambda/ambient_event_detector/lambda_function.py:441 | a stored event never changes the active events a later context reads |
| `Ambient.StoreEvents` | backend/lambda/ambient_event_detector/lambda_function.py:155-163 | the corrected loop over detected events, which only logs; stated by `StoreEventsStep` and `StoreEventsAppend` |
| `Ambient.StoreEventsStep` | backend/lambda/ambient_event_detector/lambda_function.py:155-163 | the loop over detected events stores the next one, then the rest |
| `Ambient.StoreEventsAppend` | backend/lambda/ambient_event_detector/lambda_function.py:155-163 | only appends, one row per store that returned an id, at most one per detected event |
| `Ambient.StoreEventsAsWritten` | backend/lambda/ambient_event_detector/lambda_function.py:155-164 | the loop over detected events as written: the title read after a successful store raises on an untitled event; stated by `StoreEventsAsWrittenStep`, `StoreEventsAsWrittenAppend` and `MissingTitleAbortsUser` |
| `Ambient.StoreEventsAsWrittenStep` | backend/lambda/ambient_event_detector/lambda_function.py:155-164 | one pass of that loop: a stored untitled event ends it raising, with the row kept and counted; otherwise the rest follow |
| `Ambient.StoreEventsAsWrittenAppend` | backend/lambda/ambient_event_detector/lambda_function.py:155-164 | the loop as written only appends, counts exactly the rows it appends, draws one id per event it reaches (all of them unless it raised), and raises only when some detected event has no title |
| `Ambient.AsWrittenAgreesWhenTitled` | backend/lambda/ambient_event_detector/lambda_function.py:155-164 | when every event has a title, the loop as written equals the corrected loop and does not raise |
| `Ambient.MissingTitleAbortsUser` | backend/lambda/ambient_event_detector/lambda_function.py:162-164 | as written, an untitled first event is stored and then raises, so the second is never stored |
| `Ambient.StoreAmbientEvent` | backend/lambda/ambient_event_detector/lambda_function.py:380-452 | the events table, id counter and result are those of `StoreEvent`; the other tables are unchanged |
| `Ambient.QueryEntriesSnoc` | backend/lambda/ambient_event_detector/lambda_function.py:289-293 | the loop step that appends an entry for a non-empty query |
| `Ambient.QueryEntriesFollowQueries` | backend/lambda/ambient_event_detector/lambda_function.py:288-293 | one entry per non-empty query, in order |
| `Ambient.QueryEntriesHaveTimestamps` | backend/lambda/ambient_event_detector/lambda_function.py:288-293 | each entry carries the timestamp of an activity whose query it is |
| `Ambient.ActiveNewestFirst` | backend/lambda/ambient_event_detector/lambda_function.py:266-283 | exactly the user's active, unexpired events; their order is stated by `ActiveNewestFirstSorted` |
| `Ambient.ActiveNewestFirstSorted` | backend/lambda/ambient_event_detector/lambda_function.py:266-283 | `ORDER BY created_at DESC`: when creation times follow the table's row order, the active events come out newest first |
| `Ambient.ActiveEvents` | backend/lambda/ambient_event_detector/lambda_function.py:266-283 | `LIMIT 10`: the first ten of `ActiveNewestFirst`, all of them when there are fewer; only the user's active, unexpired events |
| `Ambient.CollectContext` | backend/lambda/ambient_event_detector/lambda_function.py:286-296 | the loop yields the query entries and the time-of-day tally |
| `Ambient.CollectOne` | backend/lambda/ambient_event_detector/lambda_function.py:289-296 | one pass of that loop appends an entry for a non-empty query and counts a time of day that is set, and nothing else |
| `Ambient.ContextOf` | backend/lambda/ambient_event_detector/lambda_function.py:241-316 | what `get_user_context` returns for the fetched rows and the events table; stated by `ContextSummarises` |
| `Ambient.GetUserContext` | backend/lambda/ambient_event_detector/lambda_function.py:241-316 | the context is `ContextOf` the fetched rows, the events table and now |
| `Ambient.ContextSummarises` | backend/lambda/ambient_event_detector/lambda_function.py:286-313 | the entries of the first ten queries, all of them when there are fewer, carrying the queries in order; counts equal occurrences; the first ten of `ActiveNewestFirst`, all of them when there are fewer; total = rows |
| `Ambient.ProcessUser` | backend/lambda/ambient_event_detector/lambda_function.py:143-169 | one iteration of the user loop as written; stated by `FetchedUserOutcome`, `CorrectedAgreesWhenTitled` and `FailingUserIsIsolated` |
| `Ambient.FetchedUserOutcome` | backend/lambda/ambient_event_detector/lambda_function.py:143-169 | as written, a user whose context was built only gains rows, is counted with exactly the rows added for them, is processed when every detected event has a title, and fails only when some event has none |
| `Ambient.ProcessUserCorrected` | backend/lambda/ambient_event_detector/lambda_function.py:143-169 | the per-user step with the log line unable to raise; stated by `FetchedUserIsProcessed` |
| `Ambient.FetchedUserIsProcessed` | backend/lambda/ambient_event_detector/lambda_function.py:143-169 | in the corrected step (`ProcessUserCorrected`), a user whose context was built is counted as processed with exactly the rows added for them, every detected event attempted |
| `Ambient.CorrectedAgreesWhenTitled` | backend/lambda/ambient_event_detector/lambda_function.py:143-169 | when every event detected for the user has a title, the step as written equals the corrected step |
| `Ambient.RunUsers` | backend/lambda/ambient_event_detector/lambda_function.py:137-174 | the user loop as written; stated by `RunCounts`, `RunUsersAppend`, `FailingUserIsIsolated` and `RaisingUserIsCounted` |
| `Ambient.RunUsersStep` | backend/lambda/ambient_event_detector/lambda_function.py:137-174 | the user loop processes the next user, then the rest |
| `Ambient.RunCounts` | backend/lambda/ambient_event_detector/lambda_function.py:132-174 | users_processed + errors grows by the number of users; events_generated = rows appended; the table only grows |
| `Ambient.RunUsersAppend` | backend/lambda/ambient_event_detector/lambda_function.py:137-174 | a run over a + b is a run over a, then over b |
| `Ambient.RunUsersErrorShift` | backend/lambda/ambient_event_detector/lambda_function.py:171-174 | the counters do not steer the loop |
| `Ambient.FailingUserIsIsolated` | backend/lambda/ambient_event_detector/lambda_function.py:171-174 | a user whose activity fetch raises only adds one error; the run is otherwise the run without that user |
| `Ambient.UserStepKeepsRows` | backend/lambda/ambient_event_detector/lambda_function.py:143-174 | whatever its outcome, one user's step only appends to ambient_events, and the outcome counts exactly the rows it appended |
| `Ambient.RunUsersHead` | backend/lambda/ambient_event_detector/lambda_function.py:137-174 | the loop over a user followed by the rest processes that user, then the rest |
| `Ambient.RaisingUserIsCounted` | backend/lambda/ambient_event_detector/lambda_function.py:155-174 | a user whose processing raises keeps the rows stored before the raise, adds them to events_generated and adds one error, users_processed unchanged; the rest of the run continues from there |
| `Ambient.StoreDetectedEvents` | backend/lambda/ambient_event_detector/lambda_function.py:153-164 | the table, counter, stored count and raise flag are those of the loop as written, `StoreEventsAsWritten` |
| `Ambient.ProcessOneUser` | backend/lambda/ambient_event_detector/lambda_function.py:143-174 | the table and outcome are those of `ProcessUser`, the step as written: failed with the rows stored before a raise, or processed |
| `Ambient.ProcessUsers` | backend/lambda/ambient_event_detector/lambda_function.py:132-174 | the table and the three counters are those of `RunUsers`, the loop as written |
| `Ambient.Handle` | backend/lambda/ambient_event_detector/lambda_function.py:121-174 | the early answer for no users; otherwise the counters and table of the user loop as written |
| `Pipeline.AdmittedJobIsClaimable` | backend/lambda/prediction_scheduler/lambda_function.py:398-403 | an admitted row is eligible for the generator exactly during the hour after its trigger time |
| `Pipeline.GeneratedPageBlocksReadmission` | backend/lambda/claude_generator/lambda_function.py:130-145 | after the generator completes a job with a query, the scheduler turns the same prediction away as cached for 30 minutes |

## Left out

- The language-model calls (Anthropic and Together), the prompts, and the JSON parsing of their answers. They are parameters (`Generator.Generate`, `Ambient.Detect`), and the scheduler's pattern list is an argument.
- SQL text, connections, commit and rollback. A rolled-back INSERT is "no row added"; whether an INSERT succeeds is the `InsertOutcome` parameter.
- In the generator, database errors outside the cache upsert's uniqueness conflict (`update_job_status` and the activity query raising) are not modelled, so the generator's error path is the one for no components or a null query.
- Generator.RunOnce: if marking a job `processing` raised, `handle_job_failure` would still run in the `except`; only exceptions after the claim are modelled.
- MD5 itself (RFC 1321). `Fingerprint.Md5Hex` is a stand-in that returns 32 lower-case hex digits and is a function of its input; nothing else about the digest is used.
- `str.lower()` beyond ASCII: only ASCII letters are lower-cased. `str.strip()` is modelled in full, with Python's `str.isspace` set.
- The clock. `now` is a parameter, and each run uses one `now` where the source calls `NOW()` and `datetime.now()` several times. Ambient.HourOf reads the hour of `now` in the worker's local time, without time zones.
- ISO-8601 parsing. A time text arrives already parsed (`TimeText`); a non-string time value is treated as unparseable.
- Floating point. Confidences are reals, so `int(confidence * 100)` has no float rounding artefacts.
- Ambient.EventRowOf: a non-numeric `confidence_score` is not modelled (the field is a real or null); the database would reject or coerce it.
- Ambient.ActiveNewestFirst: `ORDER BY created_at DESC` is modelled as the reverse of the table's row order. `ActiveNewestFirstSorted` proves this is newest first when creation times follow row order, which holds when no run's `now` is earlier than a previous run's; ties and clock skew are not modelled.
- Ambient.ContextOf: the ISO text of the current time, the weekday name and the `json.loads` of an active event's data are not modelled. The context keeps the event rows themselves.
- `get_active_users` (both workers), `get_user_activity`, and the scheduler's `lambda_handler`. The user list and the activity rows are arguments.
- The push-notification TODO in the detector.
- Concurrency. Runs are sequential; the claim has no compare-and-swap, and overlapping runs are not modelled.
- MySQL's order among jobs that tie on both priority and scheduled time. The model fixes one order and promises nothing about it.
- `generation_queue.result_cache_key` holds either the new row's id or the key (`Store.CacheRef`); the two string forms are not merged.

## Findings

| source | as written | input that shows it | evidently intended | confidence | as-written member | corrected member |
|---|---|---|---|---|---|---|
| backend/lambda/ambient_event_detector/lambda_function.py:164 | after a successful store, the log line reads `event_data['title']`, which raises KeyError when the model's event has no title; the row is already committed and counted, the rest of that user's events are never stored, and the user is counted as an error instead of processed | two detected events, the first without a `title` key, both inserts succeeding: one row stored, `errors` + 1, `users_processed` unchanged | `store_ambient_event` defaults a missing title to '' (line 391), so a missing title is expected; logging should not end the user's processing | high, not executed | `Ambient.MissingTitleAbortsUser` (about `Ambient.StoreEventsAsWritten`, which `Ambient.ProcessUser` and the handler run) | `Ambient.FetchedUserIsProcessed` (about `Ambient.ProcessUserCorrected`, which runs `Ambient.StoreEvents`) |
