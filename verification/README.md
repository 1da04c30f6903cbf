# GPT Image Panel: protocol model of the backend

This project models, in Dafny, the parts of the backend in which several workers,
streams or retries have to agree, and proves what each of them keeps.

* **Image job queue** (`ImageQueue.dfy`, `ImageQueueRuns.dfy`,
  `ImageQueueBounds.dfy`, `ImageQueueProgress.dfy`, `ImageQueueHistory.dfy`,
  `ImageQueueParents.dfy`, `ImageQueueParentHistory.dfy`, `ParentJobs.dfy`,
  `ImageJobStore.dfy`, `JobListing.dfy`).
  The tables of parents, units and byte reservations are maps. Every repository
  function is one atomic transaction, hence one step; workers, crashes, reclaims,
  cancellations and deletions interleave in any order. `ImageJobStore.Store` is
  the imperative form of each transaction, tied to the step functions the theorems
  are about. Timestamps are integers; identifiers are numbers, of which only
  equality matters; claim tokens and unit identifiers are fresh.
* **Reference tags** (`RefTags.dfy`, `RefTagTexts.dfy`): whole-text and streamed
  removal, and what a tag is.
* **Message events** (`EventWriter.dfy`): blocks, pending text, the numbered event
  log, and the replay a client makes of it.
* **Model protocols** (`AgentTypes.dfy`, `ChatStream.dfy`, `ChatFragments.dfy`,
  `ChatClosings.dfy`, `ChatEvents.dfy`, `ResponsesStream.dfy`, `ResponsesCalls.dfy`,
  `ResponsesTexts.dfy`, `ResponsesOrder.dfy`, `ChatPayload.dfy`, `ModelRounds.dfy`):
  stream parsers, message building and the bounded decision loop.
* **Batch analysis** (`BatchAnalysis.dfy`, `BatchRuns.dfy`, `BatchWorker.dfy`): a
  crash-resumable job under a lease, as all runs of all workers, and the worker's loops,
  whose every step is an event of those runs.
* **Provider mapping** (`ProviderPaths.dfy`, `ProviderTemplates.dfy`,
  `ProviderTexts.dfy`): paths, selection, templates with omission, and the shape check.
* **Thumbnails and file names** (`ThumbnailQueue.dfy`, `Filenames.dfy`).
* **Diagnostics** (`Diagnostics.dfy`, `DiagnosticsBounds.dfy`): records and payloads
  within byte budgets.

`Common.dfy` and `Text.dfy` hold shared vocabulary. Character classes that the
source takes from Python's Unicode tables (white space, word characters) are
parameters, so results hold for every classification; where one matters it is
stated as a requirement. `dafny verify dfyconfig.toml` checks everything.

## What the proofs brought out

* Renewal and progress writes do not look at the lease's expiry, so the concurrency
  cap over runs holds for extensions of live leases only; `HeartbeatCap` is the exact
  condition for both writes and `LateHeartbeatExceedsCap` a run that violates the cap.
* `interrupted` units count as completed but have no bucket of their own, and a job
  with an interrupted unit can end as `success` (`SuccessWithInterruptedUnit`).
* Enqueueing a known identifier inserts units and a reservation whatever the stored
  status is (`EnqueueSettlesExactly`, `EnqueueReservationExact`), so an interrupted job
  can end up finished with a queued unit (`ReusedIdentifierUnsettles`); terminal
  transitions do not look at units (`TransitionSettlesExactly`, `ForcedEndUnsettles`).
* The tag stripper is independent of chunking iff every tag closes within 200
  characters (`ChunkingExact`).
* What a chat call is given after the finish reason that closes it is lost
  (`LateArgumentsAreLost`), and a call first named after that reason is completed
  behind calls of higher index (`LateNameComesLast`); `FragmentationExact` says when a
  cut message still gives the calls of the whole one, `AgreementExact` says it even when
  calls share an identifier. A stream without any finish reason ends as cut off, where
  the whole message would count as stopped.
* Responses calls can start under one identifier (`FallbacksCollide`,
  `GivenIdCollides`): the fallback counts the calls known at the time and is not
  compared with the identifiers given. `StartCollision` is the exact condition.
* The lease of an analysis job names a worker, not a run. Counters stay exact whatever
  runs overlap, but stored progress can go back (`OverlapLosesProgress`); the dispatcher
  prevents it by claiming only when no run of its own is going
  (backend/app/services/claim_loop.py:147, with a limit of one job,
  backend/app/services/assistant_runtime.py:43).
* Starting a text segment while text is pending would misplace it (`ClosedExact`).
* The keyset listing strips its cursor but not the stored keys, and `updated_at or now`
  (backend/app/repositories/db/rows.py:346) stores a timestamp that is only white space
  as it is. Then the page loop starts over and a row is returned again
  (`BlankTimestampRepeats`); `ListingExact` says which keys are safe.
* `_bounded_value` notes "1 dict entries" however many entries it leaves out; the
  text kept in the value has the right number. The model follows the code.

## Model

| member | source | states |
|---|---|---|
| `ImageQueueRuns.RunOk` | backend/app/repositories/image_jobs.py:512-612 | Over every run of admissions, claims, fenced writes, sweeps, cancellations, finalizations and deletions: a unit is running iff it holds a token and iff it holds an expiry, its attempts are its recoveries plus one once claimed, tokens are never shared, and (parent, index) is unique |
| `ImageQueueRuns.TerminalForever` | backend/app/repositories/image_jobs.py:784-908 | A unit gets at most one terminal write: from then on the whole row (status, result, usage, cost) is the same in every later state that still has it |
| `ImageQueueRuns.StaleTokenForever` | backend/app/repositories/image_jobs.py:615-675 | A token that no longer owns a unit never owns it again, and each later renew, remote write, progress, complete or fail with it leaves the whole state unchanged |
| `ImageQueueRuns.OnlyTheOwnerWrites` | backend/app/repositories/image_jobs.py:642-675 | A checkpoint changes only by a remote write of the owner, so a reclaim keeps it; results, usage and cost only by the owner finishing; attempts only by a claim; slot, creation and first start time never |
| `ImageQueueHistory.RowIsItsHistory` | backend/app/repositories/image_jobs.py:577-930 | In every state of every run each stored row is, column by column, what the events on its unit wrote last: holder and expiry, attempts and recoveries, checkpoint, result, usage, cost, error, stage and times; the columns are read off the arguments of the events |
| `ImageQueueHistory.CheckpointIsKept` | backend/app/repositories/image_jobs.py:642-675 | The remote task and mark an owner writes are in its row in every later state, through crashes and reclaims, until the owner writes another |
| `ImageQueueHistory.CheckpointIsRecoverable` | backend/app/repositories/image_jobs.py:555-561 | So an expired unit its owner checkpointed can be reclaimed with its remote task, and no sweep takes it, while recoveries are left, even with all attempts used up |
| `ImageQueueHistory.ResultStands` | backend/app/repositories/image_jobs.py:784-908 | After the owner completes or fails a unit, status, stage, images, usage, cost and error are those of that write in every later state |
| `ImageQueueRuns.OwnershipExclusive` | backend/app/repositories/image_jobs.py:577-590 | In every reachable state two owned units are the same unit iff their tokens are the same |
| `ImageQueueBounds.ClaimMatchesPrecheck` | backend/app/repositories/image_jobs.py:430-612 | A claim takes a unit iff the read-only precheck with the same arguments is true |
| `ImageQueueBounds.CandidateExists` | backend/app/repositories/image_jobs.py:540-576 | The claim query selects a row iff some unit is reclaimable or queued |
| `ImageQueueBounds.ClaimKeepsCap` | backend/app/repositories/image_jobs.py:543-549 | A claim adds exactly its own lease to the live ones and stays within the running limit |
| `ImageQueueBounds.ClaimsBounded` | backend/app/repositories/image_jobs.py:577-590 | No unit is claimed more than max(max_attempts, max_recoveries + 1) times in any run, and its attempts column is exactly its number of claims |
| `ImageQueueBounds.UncheckpointedClaimsBounded` | backend/app/repositories/image_jobs.py:559-590 | A unit whose owner never records a remote checkpoint is claimed at most max_attempts times |
| `ImageQueueBounds.CapForever` | backend/app/repositories/image_jobs.py:615-639 | With a clock that never runs back and extensions of live leases only, live leases never exceed the limit |
| `ImageQueueBounds.HeartbeatCap` | backend/app/repositories/image_jobs.py:615-781 | Renewal and progress writes do not look at expiry: each keeps the cap iff the lease is still live, stays expired, or a slot is free |
| `ImageQueueBounds.LateHeartbeatExceedsCap` | backend/app/repositories/image_jobs.py:628-639 | A run from the empty database under a limit of one: two units enqueued, both claimed in turn, and a late renewal or progress report by the first worker leaves two live leases |
| `ImageQueueProgress.ReclaimedOrExhausted` | backend/app/repositories/image_jobs.py:555-561 | On an expired running unit, reclaimable and exhausted are exact complements |
| `ImageQueueProgress.NoUnitStranded` | backend/app/repositories/image_jobs.py:678-745 | From every reachable state, if workers only crash and the clock passes each lease, alternating claim and sweep finishes every unit within a bound on the number of rounds |
| `ImageQueueProgress.RoundExists` | backend/app/repositories/image_jobs.py:512-612 | Once the clock has passed every lease the next round of such a schedule always exists |
| `ImageQueueParents.AdmissionBounds` | backend/app/repositories/image_jobs.py:340-412 | With fixed limits, in every reachable state pending units stay within max_active + max_queued and reserved bytes within a positive limit |
| `ImageQueueParentHistory.AdmissionExact` | backend/app/repositories/image_jobs.py:353-388 | Which of the four verdicts an order gets: no room, too many bytes beside those of the other jobs, a slot taken, or accepted |
| `ImageQueueParentHistory.ParentIsItsHistory` | backend/app/repositories/image_jobs.py:389-413 | In every reachable state the row of a job is what its last order, update, end, cancellation or interruption left, and its reservation what its last order asked for until it ended |
| `ImageQueueParentHistory.ClaimTakesTheOldest` | backend/app/repositories/image_jobs.py:550-576 | A claim takes the retryable unit whose lease ended first, the oldest of those, and only without any the oldest queued one |
| `ImageQueueParentHistory.ImagesExactly` | backend/app/repositories/image_jobs.py:960-999 | The images of a job are those of its successful units in row order, each under the index of its unit and its place there |
| `ImageQueueParents.EnqueuedReserved` | backend/app/repositories/image_jobs.py:367-405 | An accepted job replaces its own reservation: the sum grows by at most the new bytes minus the old |
| `ImageQueueParents.BucketsPartition` | backend/app/repositories/image_jobs.py:951-999 | Completed, running and queued partition the units; interrupted units are exactly what completed counts beyond success, failure and cancelled |
| `ImageQueueParents.CountIsSetSize` | backend/app/repositories/image_jobs.py:954-959 | Each bucket counts each unit of the job once, whatever the row order |
| `ImageQueueParents.CompletedNeverDecreases` | backend/app/repositories/image_jobs.py:954-954 | No step that keeps the job lowers its completed count |
| `ParentJobs.DerivedEndIsAllFinished` | backend/app/services/image_job_aggregate.py:57-200 | The derived status ends a job iff it has units and all are finished |
| `ParentJobs.DerivedOutcomes` | backend/app/services/image_job_aggregate.py:86-165 | What success, partial failure, cancelled and upstream error each mean for the units, both directions |
| `ParentJobs.DerivedOpen` | backend/app/services/image_job_aggregate.py:166-200 | A job that is not over is queued iff no unit was ever claimed, and running otherwise |
| `ParentJobs.DerivedUpstream` | backend/app/services/image_job_aggregate.py:119-165 | A finished job is an upstream error iff no unit has an image, some unit failed upstream and none failed otherwise |
| `ParentJobs.SuccessWithInterruptedUnit` | backend/app/services/image_job_aggregate.py:86-118 | A run of six events from the empty database to a successful job with an interrupted unit: one unit completed with images, the other claimed, abandoned and swept, the parent finalized from them |
| `ParentJobs.FinishedParentsAreSettled` | backend/app/repositories/image_jobs.py:1044-1079 | In guarded runs a finished parent has only finished units, and every reservation belongs to an active parent |
| `ParentJobs.TransitionSettlesExactly` | backend/app/repositories/image_jobs.py:1082-1107 | An unguarded transition keeps that iff the job has nothing pending or stays active |
| `ParentJobs.EnqueueSettlesExactly` | backend/app/repositories/image_jobs.py:389-413 | Enqueue ignores the stored status: an accepted order keeps finished parents settled iff both the stored row, if any, and the incoming one are active |
| `ParentJobs.EnqueueReservationExact` | backend/app/repositories/image_jobs.py:389-405 | It keeps every reservation owned iff nothing is reserved or both rows are active |
| `ParentJobs.ReusedIdentifierUnsettles` | backend/app/repositories/image_jobs.py:1269-1308 | A run in which an interrupted job is enqueued again under its identifier and ends up finished with a queued unit and a reservation |
| `ParentJobs.ForcedEndUnsettles` | backend/app/repositories/image_jobs.py:1082-1107 | A run in which a job is forced to any final status while its unit is queued, which stays queued |
| `ParentJobs.CancelEndsEverything` | backend/app/repositories/image_jobs.py:1110-1145 | Cancelling an active parent ends it and all its units, frees its bytes, and touches nothing else |
| `ParentJobs.FinishedParentForever` | backend/app/repositories/image_jobs.py:1011-1041 | A finished parent row is never rewritten while its identifier is not enqueued again |
| `ParentJobs.CancellationFinal` | backend/app/repositories/image_jobs.py:911-930 | After a cancellation, in every later state the parent is the cancelled one, its units are unchanged, and no event claims or writes them |
| `ImageJobStore.Store.EnqueueImageJob` | backend/app/repositories/image_jobs.py:353-413 | The transaction computes the admission verdict and the new tables of the specification, rejections leaving them unchanged |
| `ImageJobStore.Store.ClaimNextUnit` | backend/app/repositories/image_jobs.py:512-612 | Claims a least candidate iff there is one and a slot is free, and changes only that row |
| `ImageJobStore.Store.ExpireExhaustedUnits` | backend/app/repositories/image_jobs.py:678-745 | Interrupts exactly the exhausted units and returns exactly the changed ones |
| `ImageJobStore.Store.SelectUnits` | backend/app/repositories/image_jobs.py:942-951 | The rows of a job in unit_index order |
| `ImageJobStore.Store.AggregateUnits` | backend/app/repositories/image_jobs.py:939-999 | The counters of the rows of a job, and the loops over the images of its successful units, tagged with unit and position |
| `ImageJobStore.Store.FinalizeFromUnits` | backend/app/repositories/image_jobs.py:1044-1079 | Applies the derivation to a consistent parent and its units iff the parent is active and the derivation gives an update |
| `JobListing.ListJobs` | backend/app/repositories/image_jobs.py:1187-1229 | The loop of keyset pages computes the skipping function the lemmas below are about, on any table |
| `JobListing.ListingExact` | backend/app/repositories/image_jobs.py:1187-1229 | The listing is plain drop(offset) and take(limit) of the sorted, filtered table for every offset and limit iff the key of every listed row, stripped as a cursor, still separates the older rows from the others |
| `JobListing.CallExact` | backend/app/repositories/image_jobs.py:1204-1228 | One call, given that the page ends before its offset keep their place: it is plain offset and limit iff the row before the first one asked for keeps its place, or the limit is zero |
| `JobListing.CleanListing` | backend/app/repositories/image_jobs.py:1187-1229 | With non-empty keys free of surrounding white space every call is plain offset and limit |
| `JobListing.PlaceExact` | backend/app/repositories/image_jobs.py:1160-1172 | Seeking with the key of row i lists exactly the rows after it iff that key keeps its place |
| `JobListing.BlankTimestampRepeats` | backend/app/repositories/image_jobs.py:1187-1229 | With a stored timestamp of one space, offset 1 and limit 1 return the first of two jobs instead of the second |
| `JobListing.ListedRows` | backend/app/repositories/image_jobs.py:1160-1184 | A listing holds a row iff its status is asked for and its key is older than the cursor, compared column by column |
| `JobListing.SeekDrops` | backend/app/repositories/image_jobs.py:1164-1172 | Seeking past row i of a listing leaves exactly the rows after it |
| `JobListing.SelectSorted` | backend/app/repositories/image_jobs.py:1174-1184 | Filtering commutes with the ordering |
| `JobListing.NewestFirstSorted` | backend/app/repositories/image_jobs.py:1180-1180 | The ordering is a strict (updated_at, job_id) descending sort of the table |
| `JobListing.NewestFirstElements` | backend/app/repositories/image_jobs.py:1180-1180 | The ordering is a permutation |
| `RefTags.ChunkingExact` | backend/app/services/agent_refs.py:78-122 | Every way of cutting a text streams to the whole-text removal iff every tag closes at offset at most 200 |
| `RefTags.ChunkingIndependent` | backend/app/services/agent_refs.py:78-122 | For a text whose tags are short, any cut gives strip_ref_tags of the whole; what that is, `RefTagTexts.StripIsRemoval` says |
| `RefTags.CharacterStream` | backend/app/services/agent_refs.py:92-122 | Fed character by character, the stream removes exactly the tags within the bound, on every text |
| `RefTags.BoundedKeepsMore` | backend/app/services/agent_refs.py:17-19 | Removing only short tags differs from strip_ref_tags iff some tag is long, and then keeps strictly more |
| `RefTags.ScanKeepsMeaning` | backend/app/services/agent_refs.py:97-117 | What one feed releases is what removal would leave of the text it passes, whatever text follows |
| `RefTags.HeldIsSuffix` | backend/app/services/agent_refs.py:113-115 | The held text is the end of the buffer: nothing is reordered or invented |
| `RefTags.HeldHasNoClose` | backend/app/services/agent_refs.py:113-115 | Held text never contains a closing bracket |
| `RefTags.Scan` | backend/app/services/agent_refs.py:113-115 | The held text never exceeds 200 characters on any input |
| `RefTagTexts.TagExact` | backend/app/services/agent_refs.py:17-19 | What a tag is, on characters: one of the two heads, then no word character, then anything up to the first closing bracket; exactly that is matched, at its whole length |
| `RefTagTexts.StripIsRemoval` | backend/app/services/agent_refs.py:17-30 | For every text cut into tags and single characters where no tag starts (each text has such a cut), removal leaves exactly those characters in order |
| `RefTagTexts.StreamIsRemoval` | backend/app/services/agent_refs.py:78-122 | The same of the stream, for every cut into deltas, when each tag is at most 201 characters long |
| `RefTagTexts.UntaggedStays` | backend/app/services/agent_refs.py:78-122 | A text in which no substring is a tag is left as it is, whole and streamed |
| `RefTagTexts.HeldCouldBeTag` | backend/app/services/agent_refs.py:97-117 | Only the beginning of a head, or text that begins with a head, is ever held back |
| `RefTags.RefTagStripper.Feed` | backend/app/services/agent_refs.py:92-118 | The position loop computes one pass over held text plus delta, for which `RefTagTexts.StreamIsRemoval` says what comes out |
| `RefTags.StripStream` | backend/app/services/agent_model_round.py:188-214 | The consumer loop of feeds and a flush yields the stream of the specification |
| `EventWriter.AddedOk` | backend/app/services/agent_event_writer.py:118-129 | However far add_text gets before a failed append, the invariants hold |
| `EventWriter.HistoryReplays` | backend/app/services/agent_event_writer.py:36-160 | After any history of publications, text, segment ends, errors and turn events, each broken off anywhere an append may fail, the replayed events plus the pending text are the blocks, whose identifiers are distinct; once the text is sent the events alone are |
| `EventWriter.TextsAreSegments` | backend/app/services/agent_event_writer.py:36-160 | After every history of changes, broken off anywhere, the texts of the text blocks are those of the segments in order, each the concatenation of the texts given for it that got as far as being stored; a client that replays the events shows the same once the text is sent |
| `EventWriter.BlocksAreLatest` | backend/app/services/agent_event_writer.py:105-117 | The other blocks are exactly those last published under their identifiers |
| `EventWriter.TurnEventsAreAnnounced` | backend/app/services/agent_event_writer.py:49-62 | The turn events among the emitted ones are those announced, in order |
| `EventWriter.ClosedExact` | backend/app/services/agent_event_writer.py:36-37 | Starting a new segment keeps the replay in step iff no text is pending |
| `EventWriter.DeltaUpsertCommute` | frontend/src/lib/utils/agentBlocks.ts:32-47 | Text deltas commute with upserts of other blocks |
| `EventWriter.NextIsFresh` | backend/app/services/agent_event_writer.py:45-47 | A new block identifier was never handed out before, under any prefix |
| `EventWriter.NumberedAppend` | backend/app/services/agent_event_writer.py:81-96 | Batches written one after the other are numbered without gaps |
| `EventWriter.AgentEventWriter.FlushEvents` | backend/app/services/agent_event_writer.py:63-97 | For any pattern of failing appends, stored events followed by buffered ones are the emitted events in order with consecutive numbers; a failed append restores the buffer |
| `EventWriter.AgentEventWriter.RunTurn` | backend/app/services/agent_event_writer.py:36-160 | Any operations, opening a text block for a delta that shows nothing included, with any failing writes and losses of the lease, then the final flushes: if the last one succeeds the numbered rows of the table replay to exactly the blocks, and the blocks of a new message hold what the operations said, each as far as it got; only a failed write cuts one off |
| `EventWriter.AgentEventWriter.AddText` | backend/app/services/agent_event_writer.py:118-129 | Text goes to the open block, a new one if need be, and nothing emitted is lost when an append fails; without a failed write the text is stored, and 256 characters are sent |
| `EventWriter.AgentEventWriter.PublishBlock` | backend/app/services/agent_event_writer.py:105-117 | What callers do with their own blocks keeps the whole invariant |
| `EventWriter.AgentEventWriter.EndTextSegment` | backend/app/services/agent_model_round.py:192-194 | Flushing before a new segment keeps the whole invariant |
| `EventWriter.EventLog.ReadCursor` | backend/app/services/agent_event_writer.py:73-80 | The loop finds the largest stored number |
| `ChatClosings.AgreementExact` | backend/app/integrations/agent_parsers.py:51-97 | For every cut of a message, with finish reasons anywhere or nowhere, the completed calls are those of the whole message iff at every place stands either the same call, unchanged by what came after its closing, or another one that had its identifier, name and arguments when it was closed |
| `ChatClosings.FragmentationExact` | backend/app/integrations/agent_parsers.py:51-97 | In particular: if no call is first named after a finish reason that closed a call of higher index, they agree iff nothing that comes after the closing of a call changes it; otherwise they differ unless two calls share an identifier |
| `ChatClosings.FragmentationInvariant` | backend/app/integrations/agent_parsers.py:27-97 | If no piece comes after a finish reason, any cut gives the text and the completed calls of the whole message, and its finish event iff the last reason is the same; without a reason it ends as cut off |
| `ChatClosings.StreamCompletes` | backend/app/integrations/agent_parsers.py:71-97 | Any stream completes the calls in the order of their closing, by index within one closing, each with the name, identifier and arguments it had then |
| `ChatClosings.OrderExact` | backend/app/integrations/agent_parsers.py:77-92 | The calls are completed in index order iff none is first named after a finish reason that closed one of higher index |
| `ChatClosings.RunHeld` | backend/app/integrations/agent_parsers.py:51-88 | After any chunks the parser holds each call as all its pieces give it, done iff it had a name at the last finish reason |
| `ChatClosings.LateArgumentsAreLost` | backend/app/integrations/agent_parsers.py:71-88 | An argument piece after the finish reason is lost |
| `ChatClosings.LateNameComesLast` | backend/app/integrations/agent_parsers.py:71-97 | A call first named after the finish reason comes out behind a call of higher index, so the list is not that of the message |
| `ChatFragments.Reassembled` | backend/app/integrations/agent_parsers.py:51-70 | The parser holds, per index, the concatenated name and arguments and the last identifier, however they are cut up |
| `ChatFragments.StreamTextAndFinish` | backend/app/integrations/agent_parsers.py:90-97 | Text, finish reason and last usage of a stream are those of the message |
| `ChatFragments.StreamedFields` | backend/app/integrations/agent_parsers.py:40-75 | The streamed text is the concatenated content, and the last finish reason and usage win |
| `ChatFragments.ParseComplete` | backend/app/integrations/agent_parsers.py:242-272 | The non-streamed parser gives exactly the content, a start and a completion per named call in list order, and the finish event |
| `ChatEvents.StreamIsExactly` | backend/app/integrations/agent_parsers.py:27-97 | Every event of every stream in order: for each chunk its text, a start for each piece that first names a call, under the last identifier given by then, and the completions its finish reason brings, then the completions of what is open and the end |
| `ChatFragments.ParseStream` | backend/app/integrations/agent_parsers.py:27-97 | Feeding every chunk and finishing yields the stream of the specification |
| `ChatStream.ChatStreamParser.Feed` | backend/app/integrations/agent_parsers.py:35-75 | A reported error changes nothing; any other chunk gives its text, starts, completions and new state |
| `ChatStream.ChatStreamParser.CompleteCalls` | backend/app/integrations/agent_parsers.py:77-88 | The loop over sorted indexes completes each open named call and no other |
| `ChatStream.ChatStreamParser.FinishStream` | backend/app/integrations/agent_parsers.py:90-97 | Completes what is open and reports the finish, or a truncated end of stream |
| `ChatStream.SortKeys` | backend/app/integrations/agent_parsers.py:79-79 | Computes the indexes in strictly increasing order |
| `ResponsesStream.NamedCallsComplete` | backend/app/integrations/agent_parsers.py:140-239 | For every run of events, a key that some event names gets exactly one start followed by exactly one completion once finished, and any other key gets nothing |
| `ResponsesStream.RunLife` | backend/app/integrations/agent_parsers.py:154-167 | At every moment the events of a key are none, a start, or a start and a completion, as its flags say |
| `ResponsesStream.RunNames` | backend/app/integrations/agent_parsers.py:140-152 | A call has a name iff some event gave it one |
| `ResponsesStream.CompleteFromDone` | backend/app/integrations/agent_parsers.py:234-239 | finish completes every call that has a name |
| `ResponsesStream.TextIsNotRepeated` | backend/app/integrations/agent_parsers.py:121-182 | Text sent as deltas, or sent whole once, is never sent whole again, over every run of events |
| `ResponsesStream.EveryTextIsOut` | backend/app/integrations/agent_parsers.py:129-224 | In every stream each text of a finished message item, among the first 100 parts and output items, has been given out |
| `ResponsesCalls.CallEvents` | backend/app/integrations/agent_parsers.py:140-239 | In every stream, whatever else is interleaved, the events given out for a key are exactly what the mentions of that key say: the identifier and name it starts under, and the name and arguments it is completed with |
| `ResponsesCalls.InterleavingIsHarmless` | backend/app/integrations/agent_parsers.py:140-224 | Mentions of other calls matter to a call for its fallback identifier only |
| `ResponsesCalls.DeltasAccumulate` | backend/app/integrations/agent_parsers.py:198-202 | Argument deltas add their concatenation to a known call, however they are cut up |
| `ResponsesCalls.StartAt` | backend/app/integrations/agent_parsers.py:154-159 | A call starts with its first name, under the last identifier given by then, else the fallback for the number of calls mentioned by then |
| `ResponsesCalls.StartCollision` | backend/app/integrations/agent_parsers.py:154-159 | In every stream two named calls start under one identifier iff both were given the same one, or one was given the fallback of the other, or neither was given one and no new call is mentioned between their first names |
| `ResponsesCalls.FallbacksCollide` | backend/app/integrations/agent_parsers.py:154-159 | A stream of three events in which two calls without identifiers start under the same fallback |
| `ResponsesCalls.GivenIdCollides` | backend/app/integrations/agent_parsers.py:154-159 | A stream of two events in which the fallback of one call is the identifier the model gave the other |
| `ResponsesTexts.PartTextsExact` | backend/app/integrations/agent_parsers.py:121-224 | At every moment of every stream the texts of each part are its deltas as they came, and its whole text from a finished item only if nothing of that part was out before |
| `ResponsesOrder.EndIsExactly` | backend/app/integrations/agent_parsers.py:234-239 | Every stream ends with the completions of the named calls not completed yet, in order of first mention and each as its mentions say, and then the finish event |
| `ResponsesOrder.PartsInOrder` | backend/app/integrations/agent_parsers.py:129-136 | The texts of a message come out in the order of its parts |
| `ResponsesStream.StreamEnds` | backend/app/integrations/agent_parsers.py:225-239 | A stream ends with the finish event of its last finished response, or a truncated end of stream |
| `ResponsesStream.ResponsesStreamParser.FeedEvent` | backend/app/integrations/agent_parsers.py:169-232 | Each event changes calls, seen text and finish as specified; an error changes nothing |
| `ResponsesStream.ResponsesStreamParser.SendParts` | backend/app/integrations/agent_parsers.py:129-136 | The loop over the first 100 parts sends the texts not seen yet |
| `ResponsesStream.ResponsesStreamParser.TakeItems` | backend/app/integrations/agent_parsers.py:217-224 | The loop over the first 100 output items |
| `ResponsesStream.ResponsesStreamParser.FinishStream` | backend/app/integrations/agent_parsers.py:234-239 | The loop over the calls in insertion order, then the finish event |
| `ChatPayload.LeftInverseExact` | backend/app/integrations/agent_client.py:112-151 | Reading the messages back gives exactly the items iff no arguments and no image URL are empty |
| `ChatPayload.UnbuildBuild` | backend/app/integrations/agent_client.py:112-151 | The messages determine the items up to their normal form, on every item list |
| `ChatPayload.InstructionsLead` | backend/app/integrations/agent_client.py:113-113 | The instructions are the first message and the only system message |
| `ChatPayload.PlainWithoutImages` | backend/app/integrations/agent_client.py:127-136 | A user message is sent in parts iff it has an image |
| `ChatPayload.CallsJoinTheirText` | backend/app/integrations/agent_client.py:137-148 | Calls right after an assistant text are sent with that text, and an assistant message without text has calls |
| `ChatPayload.SoundRound` | backend/app/integrations/agent_client.py:138-151 | A round's calls followed by its results keep every call answered at once and in order |
| `ChatPayload.BuildMessages` | backend/app/integrations/agent_client.py:112-151 | The pending/flush loop computes the message list |
| `ModelRounds.RequestsAreAnswered` | backend/app/services/agent_model_round.py:78-95 | Every request the loop can send is well formed: each assistant message with tool calls is followed at once by one tool message per call, in order, and there are no others |
| `ModelRounds.BudgetKept` | backend/app/services/agent_model_round.py:51-71 | For any answers, rounds and searches stay within the budget, at most eight calls are kept per unit of it, and the loop ends after at most one answer more than the budget |
| `ModelRounds.ToolsRunExactly` | backend/app/services/agent_model_round.py:51-107 | For any answers: the tools of the first n run, each legitimately terminated and within the call limit, and no others; the next answer ends the turn, well iff it is within the search budget, legitimately terminated and has something to show or only calls no tools were offered for; the budget spent is n and the searches |
| `ModelRounds.AppendedExactly` | backend/app/services/agent_model_round.py:78-95 | The items of a round place by place: its text, the calls as made, for each call its own output, the images |
| `ModelRounds.SearchesExact` | backend/app/services/agent_search.py:29-37 | The searches of an answer are accepted iff the new ones fit the budget, and cost one unit each whatever their order |
| `ModelRounds.SearchedBudget` | backend/app/services/agent_search.py:29-37 | Each new search costs one unit and is refused when the budget is used up |
| `ModelRounds.RunContext.RunLoop` | backend/app/services/agent_model_round.py:51-96 | The loop computes the passes of the specification |
| `ModelRounds.RunContext.Search` | backend/app/services/agent_search.py:29-37 | The loop over search updates |
| `ModelRounds.RunContext.AppendRound` | backend/app/services/agent_model_round.py:78-95 | Text, calls, results and images are appended in this order |
| `BatchRuns.CompletionIsExact` | backend/app/services/assistant_batch.py:334-449 | Over every run with crashes and takeovers: while open, analyzed + failed + missing = processed + initially missing and processed never exceeds requested; when finished, everything requested is accounted for, and success iff all was analyzed |
| `BatchRuns.SelectionIsExact` | backend/app/services/assistant_batch.py:266-289 | On an unchanged gallery, through any crashes and takeovers, a selection counts the matching rows in order, each once, and when finished exactly all of them |
| `BatchRuns.StaticStep` | backend/app/services/assistant_batch.py:360-424 | No step skips or repeats a matching row of an unchanged gallery |
| `BatchRuns.AlwaysOk` | backend/app/services/assistant_batch.py:400-422 | In every reachable state, overlapping runs of one worker included, the stored counters and checkpoint and those of every run describe the same rows |
| `BatchRuns.ProgressOnlyGrows` | backend/app/services/assistant_batch.py:405-419 | While no worker claims beside a run of its own, which the dispatcher ensures, stored rows are only ever extended: crashes and takeovers go on from the stored ones |
| `BatchRuns.OverlapLosesProgress` | backend/app/repositories/coordination/gallery_jobs.py:607-671 | The lease names only the worker: with two runs of one worker going, a write of the older one takes back a stored row, for any job and table with two rows to fetch |
| `BatchRuns.FinishedForever` | backend/app/repositories/coordination/gallery_jobs.py:169-184 | A finished job is never written again |
| `BatchRuns.StaleWorkerStops` | backend/app/repositories/coordination/gallery_jobs.py:215-229 | A run whose worker does not hold a live lease changes nothing by any write and stops |
| `BatchRuns.HolderWrites` | backend/app/repositories/coordination/gallery_jobs.py:215-229 | With the lease every write is stored: a renewal moves the expiry alone, a counted row adds its own entry to the stored ones, the last write frees the job |
| `BatchRuns.ClaimExact` | backend/app/repositories/coordination/gallery_jobs.py:607-671 | A claim takes a queued job or one whose lease has run out when a slot is free, leaves the counters alone, and changes nothing otherwise |
| `BatchRuns.FetchExact` | backend/app/services/assistant_batch.py:360-424 | A fetch stores nothing and is known to be the last iff it found fewer rows than asked for, the rows are used up, or there is a list |
| `BatchAnalysis.Accounting` | backend/app/services/assistant_batch.py:343-347 | A consistent tally counts each row once and adds up |
| `BatchAnalysis.CompletedOk` | backend/app/services/assistant_batch.py:425-447 | Closing a tally accounts for everything requested, with the right verdict |
| `BatchAnalysis.CountedOk` | backend/app/services/assistant_batch.py:400-402 | Counting the next row keeps counters, checkpoint and remaining rows consistent |
| `BatchAnalysis.NextBatchCountable` | backend/app/services/assistant_batch.py:250-289 | A fetched batch holds exactly rows that may be counted next, and all of them in list mode |
| `BatchAnalysis.PageIsNext` | backend/app/repositories/gallery/queries.py:136-174 | A keyset page is in strict descending order, after the checkpoint and within the boundary, compared on the columns |
| `BatchAnalysis.PageIsComplete` | backend/app/repositories/gallery/queries.py:136-174 | A page without limit holds every row between checkpoint and boundary |
| `BatchAnalysis.PageContinues` | backend/app/repositories/gallery/queries.py:136-174 | After the first i matching rows the page holds exactly the next ones |
| `BatchAnalysis.PageRows` | backend/app/repositories/gallery/queries.py:136-174 | A keyset page holds table rows after the checkpoint and within the snapshot boundary, no more than its limit |
| `BatchAnalysis.FoundExactly` | backend/app/services/assistant_batch.py:119-127 | The identifiers kept are those that were found, as often as they were asked for |
| `BatchWorker.AnalysisDecides` | backend/app/services/assistant_batch.py:371-399 | The first answer that is not busy decides the outcome of an image: analyzed, missing, failed, or a lost lease |
| `BatchAnalysis.CreateFromIds` | backend/app/services/assistant_batch.py:116-142 | Accepts iff within the limit and something was found; missing entries are counted from the start |
| `BatchAnalysis.CreateFromSelection` | backend/app/services/assistant_batch.py:100-115 | Accepts iff the snapshot is not empty and within the limit |
| `BatchWorker.GalleryJob.RunJob` | backend/app/services/assistant_batch.py:334-449 | Whatever other runs do in between, the run is steps of BatchRuns and sees the tables given in order; it counts one entry per row in order, each with the outcome its own answers decide; if it finishes, the stored record has exactly those entries and their counts; otherwise the answers or tables ran out, a write without the lease was refused, or an answer said that the lease is lost |
| `BatchWorker.GalleryJob.RunBatch` | backend/app/services/assistant_batch.py:368-422 | Each row is counted with the outcome of the answer consumed for it and stored before the next; it stops early only when answers run out or the lease is gone |
| `BatchWorker.GalleryJob.AnalyzeOne` | backend/app/services/assistant_batch.py:371-399 | The retry loop consumes answers up to the first that is not busy, whose outcome it gives; without one it ends for lack of answers, and is lost only by a refused renewal or an answer that says so |
| `BatchWorker.GalleryJob.Claim` | backend/app/repositories/coordination/gallery_jobs.py:607-671 | Takes a queued or expired job and nothing else |
| `ProviderPaths.ParsePrint` | backend/app/core/provider_mapping.py:36-56 | Parsing the printed form of legal tokens gives them back, up to 12 tokens and no further |
| `ProviderPaths.ParsedIsLegal` | backend/app/core/provider_mapping.py:36-56 | Whatever is accepted is at most 12 legal tokens and has a canonical form that parses to the same |
| `ProviderPaths.MatchPrinted` | backend/app/core/provider_mapping.py:20-20 | A printed token is matched back whole, whatever token follows |
| `ProviderPaths.SelectCompose` | backend/app/core/provider_mapping.py:59-74 | Selecting along p + q is selecting along q in each value selected along p, in order |
| `ProviderPaths.SelectAtMostOne` | backend/app/core/provider_mapping.py:64-74 | A path without [*] selects at most one value |
| `ProviderPaths.ParsePath` | backend/app/core/provider_mapping.py:36-56 | The position loop computes the parse, errors included |
| `ProviderPaths.SelectAll` | backend/app/core/provider_mapping.py:59-74 | The frontier loop computes the selection |
| `ProviderTemplates.SetVariableIsSelected` | backend/app/core/provider_mapping.py:147-179 | Wherever the template holds a whole placeholder of a set variable, the body holds exactly that value at the path renumbered by kept items |
| `ProviderTemplates.UnsetVariableIsAbsent` | backend/app/core/provider_mapping.py:147-179 | At a path of dictionary keys to the whole placeholder of an unset variable the body has nothing |
| `ProviderTemplates.RenderAgrees` | backend/app/core/provider_mapping.py:82-92 | Requests that agree on the template variables render alike |
| `ProviderTemplates.TemplateIsPlain` | backend/app/core/provider_mapping.py:142-162 | The body never contains the omission sentinel |
| `ProviderTemplates.RenderExact` | backend/app/core/provider_mapping.py:147-179 | Rendering fails iff a name is unknown or a name inside a longer string has no value; `ProviderTexts.LongerRenders` says what it gives |
| `ProviderTexts.PlaceholderExact` | backend/app/core/provider_mapping.py:18-19 | What a placeholder is, on characters: two braces, white space, a name, white space, two braces; exactly that is found, with its name |
| `ProviderTexts.LongerRenders` | backend/app/core/provider_mapping.py:147-179 | A string with placeholders in longer text (every string has a cut into them and other characters) renders to its literal text with the value of each variable in place of its placeholder, iff all are set and known |
| `ProviderTexts.WholeRenders` | backend/app/core/provider_mapping.py:147-179 | White space around one placeholder renders to the value with its type, or is omitted without one, and fails iff the name is unknown |
| `ProviderTexts.NamesAreHoles` | backend/app/core/provider_mapping.py:82-92 | The variables of a string are the names of its placeholders |
| `ProviderTexts.PlainTemplate` | backend/app/core/provider_mapping.py:130-162 | A template without placeholders is sent as it is |
| `ProviderTemplates.RenderedAt` | backend/app/core/provider_mapping.py:147-179 | Every part of a template is in the body what it renders to by itself, at the same path with list indexes counted among kept items |
| `ProviderTemplates.EmptiedIsOmitted` | backend/app/core/provider_mapping.py:155-162 | A container is left out iff it had something and all of that was left out |
| `ProviderTemplates.FitsIsHeight` | backend/app/core/provider_mapping.py:99-117 | The depth limit is about the height of the value |
| `ProviderTemplates.WholeIsNamed` | backend/app/core/provider_mapping.py:18-19 | The variable of a whole placeholder is among the names found in the string |
| `ProviderTemplates.ValidateShape` | backend/app/core/provider_mapping.py:95-119 | Accepts exactly the JSON templates at most 6 deep, with at most 200 values and no placeholder in a key |
| `ProviderTemplates.ShapeCheck.Visit` | backend/app/core/provider_mapping.py:99-117 | The counting visit accepts a subtree iff it is shallow, clean and within what is left of the budget |
| `ThumbnailQueue.ThumbnailJobs.EnqueueBatch` | backend/app/repositories/thumbnail_jobs.py:177-252 | The read-then-upsert batch leaves the table that queueing row by row at the same time leaves, for any table, names and chunk size |
| `ThumbnailQueue.ThumbnailJobs.EnqueueOne` | backend/app/repositories/thumbnail_jobs.py:123-174 | Queues iff the stripped name is a file and, unless forced, it is neither done nor under a live lease |
| `ThumbnailQueue.QueueingOutcome` | backend/app/repositories/thumbnail_jobs.py:143-172 | After queueing, every candidate is done, under a live lease, or queued without owner, lease and error; known rows keep attempts and creation time; all else is untouched |
| `ThumbnailQueue.CandidatesExact` | backend/app/repositories/thumbnail_jobs.py:189-199 | The candidates are the stripped names that are names of files |
| `ThumbnailQueue.CandidatesInOrder` | backend/app/repositories/thumbnail_jobs.py:189-199 | Later names come behind earlier ones |
| `ThumbnailQueue.EachIsUpserted` | backend/app/repositories/thumbnail_jobs.py:177-252 | Row-by-row queueing upserts each distinct candidate at most once, judged by the table as it was found |
| `ThumbnailQueue.UpsertedName` | backend/app/repositories/thumbnail_jobs.py:152-172 | Queueing a repeated name again changes nothing more |
| `ThumbnailQueue.ThumbnailJobs.Collect` | backend/app/repositories/thumbnail_jobs.py:189-199 | The distinct candidates in order of first appearance |
| `ThumbnailQueue.ThumbnailJobs.ReadChunks` | backend/app/repositories/thumbnail_jobs.py:203-214 | Reading in chunks reads exactly the rows of the candidates |
| `Filenames.DedupeFilename` | backend/app/repositories/thumbnail_jobs.py:444-463 | With or without the memo: the name itself if free, else its smallest free numbered form; the memo stays sound and the loop ends |
| `Filenames.DedupeImported` | backend/app/services/gallery_archive_import.py:397-406 | The archive loop makes the same choice |
| `Filenames.ChoiceUnique` | backend/app/repositories/thumbnail_jobs.py:444-463 | That choice is unique, so both loops agree with the search from 1 |
| `Filenames.ChoicesAreFree` | backend/app/repositories/thumbnail_jobs.py:499-515 | All chosen names are pairwise distinct and outside the used set |
| `Filenames.UsedRunIsShort` | backend/app/repositories/thumbnail_jobs.py:457-463 | A run of used numbers is no longer than the used set, which bounds the loop |
| `Filenames.DedupeEntries` | backend/app/repositories/thumbnail_jobs.py:499-515 | Each entry of an import gets that choice against everything used before it |
| `Filenames.DedupeArchive` | backend/app/services/gallery_archive_import.py:397-406 | Each archive member gets that choice against everything used before it |
| `Diagnostics.UnitDiagnostics.FinishRecord` | backend/app/core/diagnostics.py:167-200 | Keeps the newest 12 records, each at most 8192 bytes |
| `Diagnostics.UnitDiagnostics.MakePayload` | backend/app/core/diagnostics.py:202-222 | The shrink loops give a payload within max_bytes and leave the records alone |
| `Diagnostics.FinishedExact` | backend/app/core/diagnostics.py:187-197 | Every kept record fits, one that fits is kept as it is, and the truncated marker says which |
| `Diagnostics.FinishedLosesLittle` | backend/app/core/diagnostics.py:187-197 | Only the snapshot goes when that is enough; otherwise phase, request, mapping path and the beginnings of message and error stay while they fit |
| `Diagnostics.ShrunkFits` | backend/app/core/diagnostics.py:208-222 | For any records and any max_bytes of at least 1024 the payload fits, truncated markers included |
| `Diagnostics.ShrunkIntact` | backend/app/core/diagnostics.py:208-209 | A payload that fits is given out unchanged |
| `Diagnostics.ShrunkIsNewest` | backend/app/core/diagnostics.py:211-219 | What is left are the newest records in order, each intact or without its snapshot |
| `Diagnostics.NewestSurvives` | backend/app/core/diagnostics.py:216-221 | The newest record survives whenever it fits alone without its snapshot |
| `DiagnosticsBounds.ValueIsSized` | backend/app/core/diagnostics.py:82-91 | The size of a value is the number of bytes of its compact JSON text, escapes and UTF-8 included, which is spelled out byte by byte |
| `DiagnosticsBounds.PayloadIsSized` | backend/app/core/diagnostics.py:202-222 | The budgeted size of a payload is that of the JSON object it is given out as |
| `DiagnosticsBounds.StripIsLeast` | backend/app/core/diagnostics.py:211-215 | Snapshots go from the oldest record on and only until the payload fits |
| `DiagnosticsBounds.DropIsLeast` | backend/app/core/diagnostics.py:216-219 | Records go from the oldest on and only until the rest fits |
| `DiagnosticsBounds.SmallIsKept` | backend/app/core/diagnostics.py:31-79 | A small value without secrets is recorded as it is, with nothing noted |
| `DiagnosticsBounds.NotedExactly` | backend/app/core/diagnostics.py:31-79 | Something is noted as omitted iff something is, at any depth: a long or image text, a wide container or a deep value |
| `DiagnosticsBounds.EntriesStand` | backend/app/core/diagnostics.py:41-58 | Each entry of a dictionary is recorded under its redacted key, the last of equal ones, a sensitive one by its key alone |
| `DiagnosticsBounds.SensitiveIsHidden` | backend/app/core/diagnostics.py:41-58 | What stands under a sensitive key, at any depth, has no part in what is recorded |
| `Diagnostics.BoundIsSafe` | backend/app/core/diagnostics.py:31-79 | A bounded value is at most 9 deep and 21 wide, and every text in it is short and comes out of the redaction or is one of the fixed notes |

## Left out

- SQL text, the SQLite engine, busy retries, chunked statements other than the thumbnail read, and JSON columns: tables are maps and each transaction one step.
- Columns the queue never reads back: messages, durations, stage timings, diagnostics of a unit; and the sums of usage, cost and timings in the aggregate.
- `upsert_generate_job_guarded`: it is not a step of the queue, because its guard belongs to the row module and it releases no reservation.
- `trim_generate_jobs` counts rows outside its transaction; only the deletion of finished jobs is modelled, as the event `Forget`.
- ImageJobStore.Store.FailUnit: takes any status, as the source does; the runs require a terminal one.
- ParentJobs.FinishedParentsAreSettled: asks for fresh job identifiers, the source's own derivation, and no forced ending of a job with pending units; `ParentJobs.EnqueueSettlesExactly`, `ParentJobs.EnqueueReservationExact` and `ParentJobs.TransitionSettlesExactly` say what happens otherwise.
- ParentJobs.DerivedOutcomes: the parent columns other than the status are not modelled.
- Event flushes interrupted by task cancellation, which deliberately do not restore the batch.
- EventWriter.AgentEventWriter.PublishBlock: a caller's block is a value here; later changes of a shared dictionary after it was emitted are not captured, and callers never publish under the identifier of the open text block.
- EventWriter.TextsAreSegments: asks, as the callers do, that a caller's block never has the identifier of a text block.
- Search and citation events of the Responses stream, source attribution, and `parse_complete_responses_response`: they touch no state the modelled events use.
- ChatClosings.FragmentationInvariant: start events are not compared, because a start carries the name and identifier known at that moment.
- Execution of tools, preview images, prompts and HTTP transport: what the model and the tools answer is a parameter of the loop.
- BatchRuns.ProgressOnlyGrows: asks that no worker claims the job beside a run of its own; `BatchRuns.WriteExtendsExactly` says what each write does otherwise.
- BatchWorker.GalleryJob.Claim: the check on other running jobs is one boolean, as only one job is modelled.
- BatchAnalysis.PageIsNext: the gallery filters are applied to the table before it is given to the model.
- Regeneration of colliding image identifiers during an import: it is random, so it ends only with probability one.
- Filenames.ChoicesAreFree: distinct from the used set, which the import fills with the existing names equal to incoming ones, not from the whole gallery.
- ProviderPaths.ParsePath: digits are ASCII digits.
- Diagnostics.UnitDiagnostics.FinishRecord: takes a record with its optional fields already bounded, and a timestamp of at most 64 characters.
- Redaction patterns, secrets, URL and DNS checks, image, SVG and ZIP bytes, settings and preset handling, schemas, middleware and the frontend apart from the event replay.
