# Telegram runtime and platform: a verified model

A Dafny model of the parts of this repository whose correctness spans several functions or several workers, with
proofs. Check it with `dafny verify dfyconfig.toml`.

## What is modelled

- **Delivery pipeline** (`Planner`, `Copies`, `Ingest`, `JobModel`, `Store`, `Repositories`, `Pipeline`,
  `PipelineSafety`, `PipelineRuns`, `PipelineWaits`, `PipelineSends`, `PipelineCancels`, `PipelineAttempts`,
  `PipelineMarks`, `PipelineKeys`, `PipelineDrafts`, `Runner`, `Outcomes`). Inbox ingest, plan drain, claim, gate, send,
  record, stale reclaim and cancel. `Store` gives every repository transaction as a function on table values; class
  `RuntimeStore` performs it on its fields. `Pipeline` is the protocol: any number of workers interleave these
  transactions, a claim is split into the candidate read and one compare-and-set per candidate, clock readings may be
  older than the commit, a worker may crash and restart between any two transactions, and the transport answers
  anything. `PipelineSafety` proves an inductive invariant, and the other `Pipeline` modules the results over all runs.
  Class `AccountRunner` is the runner's own loop; an uninterrupted `send_next`, and a whole uninterrupted `run_once`, are
  proved to be runs of the protocol. `Copies`, `PipelineDrafts` and `Outcomes` say what is planned, drafted and recorded
  in terms of the published rows, the events and the answers of the transport alone.
- **Account lease** (`Lease`, `LeaseProtocol`, `Heartbeat`). Acquire and renew with generations over one clock, where
  the clock reading, the row read and the write of a call are three separate steps.
- **Message entities** (`Rewriting`, `Entities`, `UrlFilter`). In-place text edits with a running offset error against
  the simultaneous replacement of spans and the image of every range.
- **Graph algorithms** (`PluginOrder`, `Requirements`). Depth-first ordering with cycle detection, and the closure check
  of installed requirements, both with their mutable visited sets.
- **Snowflake ids** (`Bits`, `Snowflake`). Shifts, masks and disjunctions on integers, the generator, the parser.
- **Mirror-id store** (`LruCache`, `MirrorStore`). The bounded store against the unbounded SQL table.
- **Tree builders** (`TreeBuilder`). The one-pass and the recursive builder, on nodes in the heap.
- **Albums** (`Album`). Windowed grouping over whole histories of adds and flushes.
- **Session envelope** (`Base64`, `Json`, `Envelope`). Packing and unpacking, byte by byte.

Clocks, random draws, policy decisions, transport outcomes, regular-expression matches, version specifiers and markers
are parameters. Times are reals. Text is a sequence of characters, which stands for the UTF-16 units the filter counts in.

## Where code and documentation disagree

The model follows the code.

- The table in `update_entities_params` describes five cases; the code meets it exactly under the condition of
  `Entities.UpdateMeetsTable`. An entity that overlaps a replaced span on its right keeps its length
  (`Entities.RightOverlapKeepsLength`), and one inside the span sharing an end point is not resized.
- `AUTH_DEAD` is documented as moving no job; the runner records `failed_permanent` (`JobModel.RecordFollowsClassification`).
- Attempt rows are documented as never updated; a record or a stale reclaim does update them
  (`PipelineAttempts.AttemptRowIsUpdated`, exactly when and how: `PipelineAttempts.AttemptChangesExactly`).
- A member answered LATE is documented as an anomaly that its group misses; a member delivered a second time is answered
  LATE although its group holds it (`Album.LateIdCanBeInGroup`, exactly when: `Album.LateIdInGroupIffAcceptedBefore`).
- A successful cancel does not stop a send that has already been claimed (`PipelineRuns.CancelledJobIsSent`). It stops
  all further sends exactly when no worker owns an attempt of the job any more, or its kind is unknown
  (`PipelineCancels.CancelStopsUnlessOwned`).
- Nothing in the lease repository keeps a worker from overlapping its own calls; windows of different workers are
  exclusive exactly when it does not (`LeaseProtocol.WindowsApartIffSerial`, the run: `LeaseProtocol.RacingRenewsOverlap`).

## Model

| member | source | states |
|---|---|---|
| `PipelineRuns.EveryRunSafe` | telegram-runtime/runtime/storage/repos.py:1-7 | in every interleaving of ingest, drain, sweep, candidate read, claim, gate, send, record, cancel, crash and clock steps by any number of workers, the whole protocol invariant holds |
| `PipelineRuns.AttemptsAlwaysNumbered` | telegram-runtime/runtime/storage/repos.py:197-231 | in every run, however stale the candidate reads: the attempt rows of a job are numbered exactly 1..attempt_count, no gap and no repeat |
| `PipelineRuns.ProcessedRowsHaveTheirJobs` | telegram-runtime/runtime/storage/repos.py:109-127 | in every run: at most one job per idempotency key, and a processed inbox row has a job for every key the published rules ask of its event |
| `PipelineKeys.KeysExactly` | telegram-runtime/runtime/storage/repos.py:109-127 | in every run a job stands under a key exactly when the platform inserted one there or a processed inbox row asks for it under the published rules, whatever the batches, the message map and the sender draws were |
| `PipelineKeys.SameEventsSameKeys` | telegram-runtime/runtime/storage/repos.py:109-127 | two runs that have processed the same events and taken the same inserts have jobs under the same keys |
| `PipelineKeys.NewKeyIsAsked` | telegram-runtime/runtime/storage/repos.py:109-127 | a drain adds no job under a key that none of its rows asks for |
| `PipelineDrafts.DrainDrafts` | telegram-runtime/runtime/storage/repos.py:109-127 | every job a drain appends carries out what a rule asks of a row of the batch for one route, column by column; it stands at waiting_approval exactly for a new message under a rule with message review, and at ready otherwise |
| `PipelineDrafts.UnreviewedIsNeverSent` | telegram-runtime/runtime/storage/repos.py:413-428 | in every run a job under a key the platform never inserted carries out what a published rule asks of a processed row, and while that rule wants the message reviewed it still waits for approval and has had no transport call |
| `PipelineRuns.SendingEntriesApart` | telegram-runtime/runtime/storage/repos.py:233-253 | in every run: two entries of one job into sending are stamped more than 300 s apart and a stale reclaim of that job lies between them |
| `PipelineRuns.TransportCallsBounded` | telegram-runtime/runtime/delivery/executor.py:115-136 | in every run: no attempt makes two transport calls, so the calls made for a job never exceed its attempt_count |
| `PipelineRuns.StepFollowsEdges` | telegram-runtime/runtime/delivery/model.py:57-81 | one step of anybody moves a job along a legal edge, except that the stale reclaim goes from sending to ready; a settled job's row stays as it is |
| `PipelineRuns.SettledForever` | telegram-runtime/runtime/delivery/model.py:36-81 | in every continuation of any state: a terminal, uncertain, blocked, pending or approval-waiting job is never moved or claimed again by these steps |
| `PipelineRuns.SettledCovers` | telegram-runtime/runtime/delivery/model.py:36-45 | which statuses the settled ones are |
| `PipelineRuns.GateEntersUnlessCancelled` | telegram-runtime/runtime/worker/runner.py:184-252 | in every run: an allowed worker always goes on to the transport, and the row enters sending exactly unless the job was cancelled meanwhile |
| `PipelineRuns.CancelledJobIsSent` | telegram-runtime/runtime/worker/runner.py:214-230 | a run in which a cancel between claim and gate succeeds and the message is sent nevertheless: the result of the leased-to-sending update is not looked at |
| `PipelineCancels.CancelStopsUnlessOwned` | telegram-runtime/runtime/worker/host.py:423-429 | in every run a cancelled job is never sent again, whatever follows, exactly when its kind is unknown or no worker stands between claiming one of its attempts and the transport |
| `PipelineCancels.StepCallsFor` | telegram-runtime/runtime/worker/runner.py:239-252 | a step makes a transport call for a job only for a worker that owns one of its attempts and knows the kind |
| `PipelineAttempts.AttemptChangesExactly` | telegram-runtime/runtime/storage/repos.py:167-172 | one step changes an attempt row exactly when a stale reclaim closes it while open, or a record under its number finishes it while its job is sending, with the values written; generation and start time never change |
| `PipelineAttempts.AttemptsKeepTheirStart` | telegram-runtime/runtime/storage/models.py:157-174 | in every continuation an attempt row stays, with its worker generation and start time |
| `PipelineAttempts.AttemptRowIsUpdated` | telegram-runtime/runtime/storage/models.py:157-158 | a run in which an attempt row is updated, against the comment on the table |
| `PipelineMarks.EntersWhenMarked` | telegram-runtime/runtime/storage/repos.py:255-268 | a row turns to sending in a step exactly when that step writes the entry into the history, with the time stamped on the row |
| `PipelineMarks.ReopensWhenMarked` | telegram-runtime/runtime/storage/repos.py:233-253 | a sending row becomes ready in a step exactly when that step writes a reclaim that lists it |
| `PipelineSafety.StepKeeps` | telegram-runtime/runtime/storage/repos.py:1-7 | every single step keeps the invariant |
| `PipelineSafety.SweepKeeps` | telegram-runtime/runtime/storage/repos.py:233-253 | the stale reclaim keeps the invariant; it is the only step that reopens a send |
| `PipelineSafety.WonKeeps` | telegram-runtime/runtime/storage/repos.py:208-230 | a claim won on an outdated candidate still keeps numbering, ownership and the spacing of sends |
| `PipelineSafety.AllowKeeps` | telegram-runtime/runtime/worker/runner.py:228-228 | entering sending keeps the spacing: a worker that holds a job started after every reclaim of it |
| `PipelineSafety.SendKeeps` | telegram-runtime/runtime/worker/runner.py:239-245 | the transport call uses up the attempt its worker owns |
| `PipelineWaits.ClaimsAreNeverEarly` | telegram-runtime/runtime/storage/repos.py:208-230 | in every run a winning claim respects next_attempt_at and flood_wait_until as they stand in the row now, although it tested the values it had read earlier: an outdated wait comes with an outdated count, which the attempt key turns away |
| `PipelineWaits.OneHolderPerJob` | telegram-runtime/runtime/storage/repos.py:208-230 | in every run at most one worker stands between the claim of a job and its gate |
| `PipelineWaits.MapRowsForGood` | telegram-runtime/runtime/storage/repos.py:174-193 | in every continuation a message-map row stays as first written |
| `PipelineSends.SucceededWasSent` | telegram-runtime/runtime/worker/runner.py:239-264 | in every run a message job that stands as succeeded has had at least one transport call and at most attempt_count |
| `PipelineSends.StepSends` | telegram-runtime/runtime/delivery/executor.py:112-136 | every step keeps that a success, recorded or about to be, was preceded by a call |
| `Runner.SendNextIsARun` | telegram-runtime/runtime/worker/runner.py:184-252 | a send_next that nobody interrupts is a run of the protocol: same tables, same transport calls, the worker idle again, no other worker touched |
| `Runner.SendNextWithinAttempts` | telegram-runtime/runtime/worker/runner.py:184-252 | after any run of the system, an uninterrupted send_next leaves every job with at most attempt_count transport calls |
| `Runner.SendAllIsARun` | telegram-runtime/runtime/worker/runner.py:318-320 | the sending loop, turn after turn, is a run of the protocol |
| `Runner.RoundIsARun` | telegram-runtime/runtime/worker/runner.py:313-320 | a whole uninterrupted round - read the inbox, drain, send while something is due - is a run of the protocol: same tables, same calls, the worker idle, no other worker touched |
| `Outcomes.KindReadsBack` | telegram-runtime/runtime/worker/runner.py:68-71 | the kind a plan is stored with is the kind that is executed; the texts that are understood are listed |
| `Outcomes.WonClaimOpens` | telegram-runtime/runtime/storage/repos.py:208-230 | a winning claim leases the job under the next number and opens that attempt with generation and start time, and changes nothing else |
| `Outcomes.OutcomeIsStored` | telegram-runtime/runtime/worker/runner.py:254-311 | what the job row, its attempt and the message map hold after an execution is recorded, answer by answer of the transport: a flood wait with its server time, a retry within the backoff bounds or a dead letter, uncertain, blocked, failed, or delivered and mapped once |
| `Outcomes.GateRefuses` | telegram-runtime/runtime/worker/runner.py:201-226 | a refusal at the gate makes no call: the job goes back to ready, with a wait under a rate limit, or is blocked; a lost lease halts the runner |
| `Outcomes.AllowedIsSent` | telegram-runtime/runtime/worker/runner.py:228-252 | allowed twice, exactly one call is made, its answer is stored, and the runner halts exactly on a dead authorization |
| `Outcomes.AllowedButNotSent` | telegram-runtime/runtime/delivery/executor.py:112-136 | refused before the call, or with nothing to edit or delete: no call, and what is recorded instead |
| `Outcomes.UnknownKindIsLeft` | telegram-runtime/runtime/worker/runner.py:68-71 | an unknown kind raises and leaves the job as the claim left it |
| `Outcomes.TurnFindsWork` | telegram-runtime/runtime/worker/runner.py:160-170 | a turn finds nothing due exactly when no ready job of the account has its waits over, and otherwise acts on one |
| `Outcomes.RoundEnds` | telegram-runtime/runtime/worker/runner.py:313-321 | a round ends only because nothing is due, an error, a halt or its turns used up |
| `Runner.TryingClaims` | telegram-runtime/runtime/storage/repos.py:208-230 | the candidate loop is one protocol step per candidate, up to the first that is not skipped |
| `Runner.AccountRunner.constructor` | telegram-runtime/runtime/worker/runner.py:150-154 | a new runner is not halted |
| `Runner.AccountRunner.RecordOutcome` | telegram-runtime/runtime/worker/runner.py:254-311 | what one execution records, and that the runner halts exactly on a dead authorization, storage or cache |
| `Runner.AccountRunner.SendHeld` | telegram-runtime/runtime/worker/runner.py:193-252 | gate, send, record: the new tables, the transport calls and the halt for each decision |
| `Runner.AccountRunner.SendNext` | telegram-runtime/runtime/worker/runner.py:184-252 | the whole new state of one call; attempt numbering and key uniqueness are kept |
| `Runner.AccountRunner.SendWhileDue` | telegram-runtime/runtime/worker/runner.py:318-320 | the loop is the fold of single sends, up to a halt, an error or nothing due |
| `Runner.AccountRunner.DrainInbox` | telegram-runtime/runtime/worker/runner.py:156-182 | drains the earliest unprocessed rows the limit allows, in one transaction |
| `Runner.AccountRunner.RunOnce` | telegram-runtime/runtime/worker/runner.py:313-320 | a halted runner does nothing at all; otherwise the drain of the next batch comes first, then the sends |
| `Store.TryClaimKeeps` | telegram-runtime/runtime/storage/repos.py:208-230 | a claim aborts on the attempt key exactly when it is due, the job is ready and the count it read is outdated; otherwise numbering stays 1..attempt_count |
| `Store.DrainKeeps` | telegram-runtime/runtime/storage/repos.py:109-127 | a drain keeps keys unique, only appends unclaimed jobs, marks exactly its batch and leaves every processed row with all its jobs |
| `Store.InsertPlansCovers` | telegram-runtime/runtime/storage/repos.py:114-124 | after the savepointed inserts every plan's key has a job, whether inserted now or before |
| `Store.ReclaimKeeps` | telegram-runtime/runtime/storage/repos.py:233-253 | the reclaim keeps attempt numbers, keys, plans and counts |
| `Store.TransitionKeeps` | telegram-runtime/runtime/storage/repos.py:255-268 | a guarded status update keeps attempt numbers, keys, plans and counts |
| `Store.RecordKeeps` | telegram-runtime/runtime/storage/repos.py:148-195 | recording keeps attempt numbers and never changes or removes a message_map row |
| `Repositories.RuntimeStore.constructor` | telegram-runtime/runtime/storage/models.py:61-210 | empty tables |
| `Repositories.RuntimeStore.IngestEvent` | telegram-runtime/runtime/storage/repos.py:51-98 | new tables of one ingest, with the source row rolled back on a duplicate; accepted exactly when the event is new |
| `Store.NextBatchIsNext` | telegram-runtime/runtime/storage/repos.py:101-107 | the batch holds unprocessed rows only, ordered by ingest sequence, and no other unprocessed row comes before one of them or would still fit |
| `Repositories.RuntimeStore.NextUnprocessed` | telegram-runtime/runtime/storage/repos.py:101-107 | the earliest unprocessed rows, as many as the limit allows |
| `Repositories.RuntimeStore.DrainToJobs` | telegram-runtime/runtime/storage/repos.py:109-127 | new tables of one drained batch |
| `Repositories.RuntimeStore.InsertEach` | telegram-runtime/runtime/storage/repos.py:114-124 | one insert per plan, conflicts skipped |
| `Repositories.RuntimeStore.CreateFromPlan` | telegram-runtime/runtime/storage/repos.py:136-146 | a new job id, or none when the key already has a job |
| `Repositories.RuntimeStore.ClaimFrom` | telegram-runtime/runtime/storage/repos.py:208-231 | the candidate loop on rows read earlier |
| `Repositories.RuntimeStore.ClaimNext` | telegram-runtime/runtime/storage/repos.py:197-231 | with nobody in between: never aborts, wins the oldest due ready job of the account with the next attempt number, and comes back empty exactly when there is none |
| `Repositories.RuntimeStore.ReclaimStaleSending` | telegram-runtime/runtime/storage/repos.py:233-253 | exactly the account's jobs stuck in sending for more than 300 s become ready, every other row is untouched, none is stuck any more, and exactly their open attempts are closed as abandoned |
| `Repositories.RuntimeStore.MoveJob` | telegram-runtime/runtime/storage/repos.py:255-268 | the guarded update, and whether it hit |
| `Repositories.RuntimeStore.FinishAttempt` | telegram-runtime/runtime/storage/repos.py:148-195 | attempt, job and message map of one recorded result; nothing when the job is not in sending |
| `Repositories.RuntimeStore.CancelJob` | telegram-runtime/runtime/worker/host.py:423-429 | succeeds exactly for a ready, waiting-for-retry or leased job and then cancels it; otherwise nothing changes |
| `Repositories.FreshClaimNeverAborts` | telegram-runtime/runtime/storage/repos.py:208-231 | a claim on up-to-date candidates cannot hit the attempt key |
| `JobModel.TerminalHasNoEdges` | telegram-runtime/runtime/delivery/model.py:36-81 | terminal is exactly: no outgoing edge |
| `JobModel.WaysIn` | telegram-runtime/runtime/delivery/model.py:57-81 | the edges read backwards: from which statuses each status is reached |
| `JobModel.BackoffBounds` | telegram-runtime/runtime/delivery/model.py:146-167 | no next attempt exactly from max_attempts on; a next attempt is never in the past nor beyond the jittered cap; the wait never shrinks |
| `JobModel.BackoffDoubles` | telegram-runtime/runtime/delivery/model.py:154-167 | the wait starts at the base delay and doubles with every attempt up to the maximum |
| `JobModel.JitterStretches` | telegram-runtime/runtime/delivery/model.py:165-167 | the jitter stretches the wait by its factor, never into the past |
| `JobModel.RecordIsLegalEdge` | telegram-runtime/runtime/worker/runner.py:254-311 | every status that can be recorded is a legal edge out of sending |
| `JobModel.RecordFollowsClassification` | telegram-runtime/runtime/delivery/model.py:125-144 | when the recorded status is the one the error table names, and when not; the runner halts exactly where the table says so |
| `JobModel.SuccessWithoutCall` | telegram-runtime/runtime/delivery/executor.py:90-150 | a success without a transport call is exactly a delete with no target |
| `Ingest.IngestExplained` | telegram-runtime/runtime/storage/repos.py:51-98 | after any history the inbox holds exactly the events delivered; a source row's revision is the greatest accepted and its tombstone says whether a delete was accepted after another event |
| `Ingest.InboxRowsUnique` | telegram-runtime/runtime/storage/models.py:109-111 | no two inbox rows hold the same event |
| `Ingest.InboxIsFirstArrivals` | telegram-runtime/runtime/storage/repos.py:80-97 | the inbox is the first arrivals of each event, in order, with all their columns and sequence numbers, not yet processed |
| `Ingest.SourceColumns` | telegram-runtime/runtime/storage/repos.py:62-78 | a source keeps the album of its first accepted event and the hash of the latest one that raised its revision and had one |
| `Ingest.SourceColumnsTell` | telegram-runtime/runtime/storage/repos.py:54-60 | one source row per tenant, project, scope, chat and message |
| `Ingest.LatestIsMaximum` | telegram-runtime/runtime/storage/repos.py:62-77 | within one tenant and project: a source exists exactly when one of its events arrived, and latest_revision is the maximum of all arrivals |
| `Ingest.IngestOrderIrrelevant` | telegram-runtime/runtime/storage/repos.py:51-98 | reordering or repeating the same deliveries leaves the same inbox events, the same sources and the same latest_revision |
| `Ingest.SecondTenantIsDropped` | telegram-runtime/runtime/storage/models.py:109-111 | the inbox key ignores the tenant: the second tenant to see an event gets neither row |
| `Planner.DedupKeyInjective` | telegram-runtime/runtime/ingest/normalizer.py:63-67 | the event key tells all five columns apart although the scope holds colons |
| `Planner.IdempotencyKeyInjective` | telegram-runtime/runtime/planner/model.py:115-120 | with colon-free rule and route ids the job key is injective |
| `Planner.ColonInRuleIdCollides` | telegram-runtime/runtime/planner/model.py:115-120 | two different actions with one key when a rule id holds a colon |
| `Planner.KeysSpelled` | telegram-runtime/runtime/ingest/normalizer.py:63-67 | the event key and the job key, field by field |
| `Planner.SourceScopeSeparatesViews` | telegram-runtime/runtime/ingest/normalizer.py:42-47 | two peers share a scope exactly when they are the same chat in the same view |
| `Planner.ScopeSpelled` | telegram-runtime/runtime/ingest/normalizer.py:42-47 | the two spellings of a scope |
| `Planner.PlanRule` | telegram-runtime/runtime/planner/planner.py:124-176 | the plans of one matching rule |
| `Planner.PlanEvent` | telegram-runtime/runtime/planner/planner.py:112-122 | the plans of one event |
| `Planner.RulePlansSay` | telegram-runtime/runtime/planner/planner.py:124-188 | a rule that admits the event plans each of its routes in order: kind, source, target chat and topic, mode, payload, approval, sender, reply target; any other rule plans nothing |
| `Planner.PlansSay` | telegram-runtime/runtime/planner/planner.py:112-188 | every plan is one for a route of a rule that admits the event and says so field by field: filters, switches and protection included |
| `Planner.RoutesArePlanned` | telegram-runtime/runtime/planner/planner.py:112-122 | every route of every rule that admits the event has its plan |
| `Planner.PlannedKeysAreWantedKeys` | telegram-runtime/runtime/planner/planner.py:112-188 | the planned keys are those the rules alone determine: neither the message map nor the random sender matters |
| `Planner.SpellTarget` | telegram-runtime/runtime/worker/host.py:93-106 | the two scope spellings of one target |
| `Planner.RulesFromSnapshot` | telegram-runtime/runtime/worker/host.py:64-109 | the rule snapshots of one published row |
| `Planner.OneSpellingMatches` | telegram-runtime/runtime/planner/planner.py:43-53 | whatever class the chat has, exactly one of the two spellings matches - when target, topic and protection allow |
| `Planner.AtMostOnePlanPerRuleAndRoute` | telegram-runtime/runtime/worker/host.py:87-107 | through the doubled snapshots an event is planned at most once per rule and route |
| `Planner.PlannedKeysDistinct` | telegram-runtime/runtime/planner/model.py:115-120 | so all planned keys of one event differ |
| `Copies.PlansCopy` | telegram-runtime/runtime/worker/host.py:64-108 | through the rule expansion, every plan copies the event to a target of a published row that watches it, sent by a living sender of the row or, when there is none, by the listening account |
| `Copies.WatchersGetCopies` | telegram-runtime/runtime/worker/host.py:64-108 | every target of a published row that watches the event gets its copy, whatever class the chat has |
| `Copies.SpellingAdmits` | telegram-runtime/runtime/worker/host.py:93-107 | one spelling admits exactly the events its target watches and that come in this spelling |
| `LeaseProtocol.EveryRunSafe` | telegram-runtime/runtime/storage/repos.py:360-410 | in every interleaving of acquire and renew calls the lease invariant holds, each worker making its calls one at a time |
| `LeaseProtocol.WindowsNeverOverlap` | telegram-runtime/runtime/storage/repos.py:360-410 | validity windows granted to different workers for one account never overlap, stale reads included |
| `LeaseProtocol.GenerationHasOneWorker` | telegram-runtime/runtime/storage/repos.py:377-398 | no generation of an account is granted to two workers |
| `LeaseProtocol.GenerationsGrow` | telegram-runtime/runtime/storage/repos.py:377-398 | generations never fall, and the worker changes only with the generation; for overlapping calls too |
| `LeaseProtocol.OldGenerationNeverRenews` | telegram-runtime/runtime/storage/repos.py:400-410 | once the generation has moved on, no renew under the old one succeeds ever again |
| `LeaseProtocol.RacingRenewsOverlap` | telegram-runtime/runtime/storage/repos.py:400-410 | for any positive ttl, a run in which two overlapping renews of one worker shorten the row and a takeover overlaps a granted window |
| `LeaseProtocol.WindowsApartIffSerial` | telegram-runtime/runtime/storage/repos.py:352-410 | with positive ttls, windows of different workers are apart in every run exactly when every worker makes its lease calls one at a time |
| `Lease.LeaseRepository.constructor` | telegram-runtime/runtime/storage/repos.py:356-358 | no leases |
| `Lease.LeaseRepository.AcquireSeen` | telegram-runtime/runtime/storage/repos.py:367-398 | the write half of acquire on a row read earlier |
| `Lease.LeaseRepository.Acquire` | telegram-runtime/runtime/storage/repos.py:360-398 | with nobody in between: refused exactly while another worker's lease is live; the generation moves exactly when the lease changes hands |
| `Lease.LeaseRepository.Renew` | telegram-runtime/runtime/storage/repos.py:400-410 | renews exactly the holder of that generation |
| `Heartbeat.LeaseHeartbeat.constructor` | telegram-runtime/runtime/account/lease_heartbeat.py:25-33 | idle, nothing lost |
| `Heartbeat.LeaseHeartbeat.Stop` | telegram-runtime/runtime/account/lease_heartbeat.py:60-62 | stops a running loop only |
| `Heartbeat.LeaseHeartbeat.Tick` | telegram-runtime/runtime/account/lease_heartbeat.py:35-48 | a failed or raising renew means LOST and one on_lost call with its reason |
| `Heartbeat.LeaseHeartbeat.Run` | telegram-runtime/runtime/account/lease_heartbeat.py:50-58 | the loop ends in LOST with exactly one on_lost call at the first failed renew, in STOPPED with none after a stop, and runs on otherwise; renews are counted |
| `Heartbeat.LoopEndAt` | telegram-runtime/runtime/account/lease_heartbeat.py:50-58 | where a loop ends is decided by its first round that does not go on |
| `Heartbeat.TakeoverEndsHeartbeat` | telegram-runtime/runtime/account/lease_heartbeat.py:35-58 | a loop that has run any number of good rounds when the lease is taken over ends with its next renew, whenever that commits and whatever follows: in LOST with exactly one on_lost call |
| `Rewriting.AddSpan` | telegram-runtime/telemirror/messagefilters/messagefilters.py:174-186 | cutting one more span out of the rewritten text is rewriting with that span as well |
| `Rewriting.ImageAfterAdd` | telegram-runtime/telemirror/messagefilters/messagefilters.py:188-191 | how every position moves when one more span is replaced |
| `Rewriting.RewrittenPart` | telegram-runtime/telemirror/messagefilters/messagefilters.py:174-191 | the image of a range covers exactly the rewriting of the range |
| `Entities.UpdateEntitiesParams` | telegram-runtime/telemirror/mixins.py:109-150 | the new place of every entity |
| `Entities.UpdateMeetsTable` | telegram-runtime/telemirror/mixins.py:116-128 | the update agrees with the documented table exactly under a condition on the entity's range; shared end points and right overlaps fail |
| `Entities.RightOverlapKeepsLength` | telegram-runtime/telemirror/mixins.py:141-143 | every overlap on the right keeps its length, where the table cuts it; a range on which they differ |
| `Entities.SharedEndIsLeft` | telegram-runtime/telemirror/mixins.py:131-150 | ranges inside the replaced one that share an end are left alone, and all ranges when the lengths agree |
| `Entities.UpdateTracks` | telegram-runtime/telemirror/mixins.py:133-150 | an entity clear of the replaced span stays on its image |
| `Entities.TrackedCoverage` | telegram-runtime/telemirror/mixins.py:133-150 | an entity on its image covers exactly the rewriting of what it covered |
| `Entities.OffsetError` | telegram-runtime/telemirror/messagefilters/messagefilters.py:174-187 | the running offset error is the shift of everything right of the spans replaced so far |
| `Entities.ReplaceMatches` | telegram-runtime/telemirror/messagefilters/messagefilters.py:174-191 | the in-place loop is the simultaneous replacement of all matches, and every entity clear of them lands on its image |
| `UrlFilter.FilterEntity` | telegram-runtime/telemirror/messagefilters/messagefilters.py:129-172 | one entity of the first pass; what it tests is still the original text of the entity |
| `UrlFilter.SpansByKind` | telegram-runtime/telemirror/messagefilters/messagefilters.py:133-153 | the spans replaced are exactly the places of links whose text the url matcher matches and of mentions and named links whose text the mention matcher matches |
| `UrlFilter.KeptByKind` | telegram-runtime/telemirror/messagefilters/messagefilters.py:154-172 | the entities kept, kind by kind: what is not replaced, except mentions by id under the filter and named links to a matching address |
| `UrlFilter.FirstPass` | telegram-runtime/telemirror/messagefilters/messagefilters.py:129-172 | for well-nested entities the first pass replaces exactly the matching links and mentions of the original text, at once, keeps exactly the others, and moves each to its image |
| `UrlFilter.ProcessMessage` | telegram-runtime/telemirror/messagefilters/messagefilters.py:123-191 | both passes together |
| `PluginOrder.Resolver.constructor` | telegram-platform/backend/plugin/core.py:169-172 | an empty order over the name table |
| `PluginOrder.Resolver.Visit` | telegram-platform/backend/plugin/core.py:174-192 | one visit: what it orders, and that an error it raises is true |
| `PluginOrder.Resolver.VisitDependencies` | telegram-platform/backend/plugin/core.py:182-189 | the plugin goes on the way, its dependencies are visited, and it comes off the way again |
| `PluginOrder.Resolver.VisitDependency` | telegram-platform/backend/plugin/core.py:184-188 | one dependency: visited without an error, or truly missing |
| `PluginOrder.Resolver.Enter` | telegram-platform/backend/plugin/core.py:183-183 | the plugin whose turn it is, or a table entry for a dependency, goes on the way |
| `PluginOrder.Resolver.Leave` | telegram-platform/backend/plugin/core.py:189-189 | the last plugin comes off the way, unvisited so far |
| `PluginOrder.Resolver.Append` | telegram-platform/backend/plugin/core.py:191-192 | a plugin whose dependencies are all visited is ordered |
| `PluginOrder.TurnVisits` | telegram-platform/backend/plugin/core.py:194-195 | a turn without an error has visited exactly the names that dependencies reach from its plugin without names seen before |
| `PluginOrder.OneEntryPerName` | telegram-platform/backend/plugin/core.py:169-169 | of every name in the list exactly one entry is looked at |
| `PluginOrder.BrokenEntryUnseen` | telegram-platform/backend/plugin/core.py:169-195 | a list that is ordered although one of its entries has a dependency that does not exist |
| `PluginOrder.OrderedMeansAcyclic` | telegram-platform/backend/plugin/core.py:174-192 | with distinct names a complete order with dependencies first leaves no room for a missing dependency or a cycle |
| `PluginOrder.PermutationIffDistinct` | telegram-platform/backend/plugin/core.py:162-197 | a complete ordering is a permutation of the input exactly when no name stands there twice |
| `PluginOrder.LastOfNameWins` | telegram-platform/backend/plugin/core.py:169-169 | of plugins with one name the table holds the last |
| `PluginOrder.ErrorSpelled` | telegram-platform/backend/plugin/core.py:174-189 | an error names a plugin with a dependency that no plugin has as its name, or plugins each of which depends on the next round a circle |
| `PluginOrder.VisitTurn` | telegram-platform/backend/plugin/core.py:194-195 | one round of the loop: what was seen and ordered so far grows by what its plugin reaches |
| `PluginOrder.VisitAll` | telegram-platform/backend/plugin/core.py:194-195 | the visits in input order; exactly the entries looked at are ordered, and an ordered input is taken over as it is |
| `PluginOrder.ResolvePluginOrder` | telegram-platform/backend/plugin/core.py:162-197 | for any list: succeeds exactly when the entries looked at have all their dependencies and no cycle among them, which for distinct names are all entries; every name once with dependencies first, a permutation exactly when names are distinct; an ordered list comes back unchanged; the error names a missing dependency or a real cycle |
| `Requirements.Checker.constructor` | telegram-platform/backend/plugin/requirements.py:37-38 | nothing visited |
| `Requirements.Checker.RequirementSatisfied` | telegram-platform/backend/plugin/requirements.py:40-69 | one recursive check; it ends because what is visited grows inside a finite set |
| `Requirements.Checker.CheckNeeds` | telegram-platform/backend/plugin/requirements.py:60-67 | the loop over a package's requirements |
| `Requirements.PathHandled` | telegram-platform/backend/plugin/requirements.py:40-71 | when everything visited is complete, everything reachable is satisfied, cycles included |
| `Requirements.ParseLines` | telegram-platform/backend/plugin/requirements.py:27-35 | blank and comment lines are skipped, a broken line fails |
| `Requirements.ParseSpelled` | telegram-platform/backend/plugin/requirements.py:27-35 | the requirements checked are those on the lines |
| `Requirements.MissingNeedIsFound` | telegram-platform/backend/plugin/requirements.py:40-67 | a need of a listed package that applies under the asked extras - or under none, when none is asked - and is missing or at a wrong version is found |
| `Requirements.UnaskedNeedsIgnored` | telegram-platform/backend/plugin/requirements.py:40-67 | needs that apply under none of the asked extras do not count |
| `Requirements.RequirementsInstalled` | telegram-platform/backend/plugin/requirements.py:25-71 | true exactly when every requirement reachable through active markers and extras is installed at an allowed version and no metadata on the way is broken |
| `Snowflake.PackNumber` | telegram-platform/backend/utils/snowflake.py:213-218 | the shifted disjunctions put every field in its place |
| `Snowflake.ParseFields` | telegram-platform/backend/utils/snowflake.py:228-231 | the shifts and masks read every field from its place, for any integer |
| `Snowflake.ParsePack` | telegram-platform/backend/utils/snowflake.py:221-239 | parse recovers exactly what was packed |
| `Snowflake.PackRange` | telegram-platform/backend/utils/snowflake.py:20-40 | an id is below 2^63 and not negative exactly while the clock is less than 2^41 ms after the epoch |
| `Snowflake.SnowflakeGenerator.constructor` | telegram-platform/backend/utils/snowflake.py:113-124 | not initialized |
| `Snowflake.SnowflakeGenerator.Init` | telegram-platform/backend/utils/snowflake.py:126-166 | accepted exactly within the node ranges |
| `Snowflake.SnowflakeGenerator.WaitPast` | telegram-platform/backend/utils/snowflake.py:177-183 | the first reading past the last timestamp |
| `Snowflake.SnowflakeGenerator.NextSequence` | telegram-platform/backend/utils/snowflake.py:203-204 | the masked increment wraps at 4095 |
| `Snowflake.SnowflakeGenerator.Compose` | telegram-platform/backend/utils/snowflake.py:213-218 | the composed id |
| `Snowflake.SnowflakeGenerator.NextId` | telegram-platform/backend/utils/snowflake.py:185-218 | the new state and outcome of one call, clock jumps and sequence wrap included |
| `Snowflake.OneCall` | telegram-platform/backend/utils/snowflake.py:185-218 | one call returns an id greater than the packing of the state before; it refuses exactly a jump back of more than 10 s, changing nothing |
| `Snowflake.CallSpelled` | telegram-platform/backend/utils/snowflake.py:185-218 | which id a call returns, reading by reading: a new millisecond, the same one, an exhausted one, a small and a large jump back |
| `Snowflake.IdsIncrease` | telegram-platform/backend/utils/snowflake.py:185-218 | over every clock trace the ids of a node increase strictly and carry the node |
| `Snowflake.IdsInRange` | telegram-platform/backend/utils/snowflake.py:185-218 | on every trace of readings within 2^41 ms from the epoch, every id of a run is in [0, 2^63) |
| `Snowflake.IdsParseToNode` | telegram-platform/backend/utils/snowflake.py:221-239 | every id of a run parses back to its node |
| `Snowflake.NodesNeverCollide` | telegram-platform/backend/utils/snowflake.py:185-239 | two different nodes never produce the same id, on any clocks |
| `LruCache.Cache.constructor` | telegram-runtime/telemirror/misc/lrucache.py:17-23 | an empty cache; a purge keeps capacity * (1 - free_factor) entries and at least one |
| `LruCache.Cache.SetItem` | telegram-runtime/telemirror/misc/lrucache.py:25-32 | the key becomes the newest; on overflow the purge keeps the newest keep_last entries |
| `LruCache.Cache.GetItem` | telegram-runtime/telemirror/misc/lrucache.py:34-38 | the value; the key becomes the newest, no key is lost and none changes its value |
| `LruCache.Cache.SetDefault` | telegram-runtime/telemirror/storage.py:147-155 | the stored value or the default, with the key as the newest |
| `LruCache.Cache.Store` | telegram-runtime/telemirror/storage.py:153-155 | changing a stored object moves no key and changes only that key's value |
| `LruCache.Cache.Pop` | telegram-runtime/telemirror/storage.py:218-220 | the key is gone, every other key keeps its value, and its room is free |
| `LruCache.PutKeepsNewest` | telegram-runtime/telemirror/misc/lrucache.py:25-32 | size never exceeds capacity and the key just put survives the purge as the newest |
| `LruCache.PutFind` | telegram-runtime/telemirror/misc/lrucache.py:25-32 | another key keeps its value or is forgotten, and is forgotten only when a new key overflows the cache |
| `LruCache.PutSize` | telegram-runtime/telemirror/misc/lrucache.py:25-32 | how many entries there are after an insert; one that overflows leaves floor(keep_last) |
| `MirrorStore.MessageKeyInjective` | telegram-runtime/telemirror/storage.py:235-248 | the colon-joined key is injective on channel and id, negative ids included |
| `MirrorStore.InMemoryDatabase.constructor` | telegram-runtime/telemirror/storage.py:139-142 | an empty store of that capacity, of which a purge keeps half |
| `MirrorStore.InMemoryDatabase.Insert` | telegram-runtime/telemirror/storage.py:147-155 | one insert, on the store and on its history |
| `MirrorStore.InMemoryDatabase.InsertBatch` | telegram-runtime/telemirror/storage.py:157-168 | a batch is its inserts in order |
| `MirrorStore.InMemoryDatabase.GetMessages` | telegram-runtime/telemirror/storage.py:170-185 | what the store holds for the original: the newest part of what the SQL table of the same history returns, and all of it when the history never held more originals than the capacity |
| `MirrorStore.InMemoryDatabase.DeleteMessages` | telegram-runtime/telemirror/storage.py:208-220 | one delete, on the store and on its history |
| `MirrorStore.NeverOverCapacity` | telegram-runtime/telemirror/misc/lrucache.py:25-32 | over every history the cache stays within capacity |
| `MirrorStore.JustInsertedIsFound` | telegram-runtime/telemirror/storage.py:147-155 | after any history the message just inserted is found |
| `MirrorStore.RecentIsRetained` | telegram-runtime/telemirror/misc/lrucache.py:25-38 | after the last insert for an original, as long as it is not deleted and fewer other originals are inserted than a purge keeps, all its messages are still found |
| `MirrorStore.BoundedIsSuffix` | telegram-runtime/telemirror/storage.py:302-420 | over every history what the cache returns is a suffix of what the SQL table returns |
| `MirrorStore.SameThroughoutIffFits` | telegram-runtime/telemirror/storage.py:147-248 | cache and table answer alike throughout a history exactly when the table never holds messages of more originals than the capacity |
| `TreeBuilder.TraversalToTree` | telegram-platform/backend/utils/build_tree.py:25-50 | the roots, every node's children list, and that the lists draw the one-pass forest |
| `TreeBuilder.RootsSpelled` | telegram-platform/backend/utils/build_tree.py:35-48 | the roots are the rows without a parent in the list, in row order |
| `TreeBuilder.ChildrenSpelled` | telegram-platform/backend/utils/build_tree.py:40-45 | the children of a row are exactly the rows that name it, in row order; absent when there are none |
| `TreeBuilder.BuildBelow` | telegram-platform/backend/utils/build_tree.py:53-68 | one level of the recursion: it files exactly the rows of its forest; it ends because a line of descent repeats no row |
| `TreeBuilder.RecursiveToTree` | telegram-platform/backend/utils/build_tree.py:53-68 | the roots, exactly which rows get children, and that the lists draw the recursive forest |
| `TreeBuilder.SameForestIffNoOrphans` | telegram-platform/backend/utils/build_tree.py:25-68 | both builders give the same forest in the same order exactly when every non-null parent exists - even with cycles elsewhere |
| `TreeBuilder.OnceIffRooted` | telegram-platform/backend/utils/build_tree.py:25-50 | in the one-pass forest a row, orphan or not, occurs once when it descends from a top row, and never otherwise |
| `TreeBuilder.RootedUnlessCircling` | telegram-platform/backend/utils/build_tree.py:25-50 | a row descends from a top row exactly when its parents do not lead into a circle |
| `TreeBuilder.OnceUnlessCircling` | telegram-platform/backend/utils/build_tree.py:25-50 | in the one-pass forest a row, orphan or not, occurs once when its parents do not lead into a circle, and never otherwise |
| `TreeBuilder.AllOnceIffAcyclic` | telegram-platform/backend/utils/build_tree.py:25-50 | every row occurs exactly once in the one-pass forest exactly when no parents run in a circle |
| `TreeBuilder.ChainUnique` | telegram-platform/backend/utils/build_tree.py:53-68 | a row has at most one line of descent |
| `Album.AlbumAggregator.constructor` | telegram-runtime/runtime/ingest/album.py:36-40 | nothing open, nothing closed |
| `Album.AlbumAggregator.MaybeClose` | telegram-runtime/runtime/ingest/album.py:68-75 | closes exactly when the window has elapsed |
| `Album.AlbumAggregator.Collect` | telegram-runtime/runtime/ingest/album.py:51-57 | files a member once in its group, opening the group when needed |
| `Album.AlbumAggregator.Add` | telegram-runtime/runtime/ingest/album.py:42-59 | new state, disposition and emitted group of one add; a late one changes nothing |
| `Album.AlbumAggregator.Flush` | telegram-runtime/runtime/ingest/album.py:61-66 | closes exactly the groups whose window elapsed, in opening order, while the dictionary shrinks under the loop |
| `Album.EveryHistoryOrderly` | telegram-runtime/runtime/ingest/album.py:42-75 | over every history no key is both open and closed and each key is emitted at most once |
| `Album.EmittedAreAccepted` | telegram-runtime/runtime/ingest/album.py:42-75 | an emitted group is strictly increasing and holds exactly the ids accepted for its key |
| `Album.ClosedForGood` | telegram-runtime/runtime/ingest/album.py:48-49 | a closed key stays closed and accepts nothing more |
| `Album.ClosesWhenDue` | telegram-runtime/runtime/ingest/album.py:42-75 | over every history a group stays open as it was first seen until the first add for it or flush that reads a clock one window later, and that one closes it |
| `Album.FlushedInOrder` | telegram-runtime/runtime/ingest/album.py:61-66 | a flush emits its groups in the order in which they were opened |
| `Album.LateIdInGroupIffAcceptedBefore` | telegram-runtime/runtime/ingest/album.py:48-49 | a late id is in its key's group exactly when it was accepted before the group closed |
| `Album.LateIdCanBeInGroup` | telegram-runtime/runtime/ingest/album.py:48-49 | a history with a late id that is in a group: a member delivered again |
| `Base64.RoundTrip` | telegram-runtime/runtime/account/session_crypto.py:97-118 | decoding gives back the encoded bytes (section 4 of RFC 4648) |
| `Base64.EncodeShape` | telegram-runtime/runtime/account/session_crypto.py:98-103 | letters and pads only, four characters per three bytes begun |
| `Base64.AlphabetInOrder` | telegram-runtime/runtime/account/session_crypto.py:98-103 | the letters of the alphabet in order (section 4 of RFC 4648) |
| `Base64.QuadSpells` | telegram-runtime/runtime/account/session_crypto.py:98-103 | four letters spell the 24 bits of three bytes, high bits first |
| `Json.ReadObjectBack` | telegram-runtime/runtime/account/session_crypto.py:98-111 | reading a written flat object gives its dictionary (section 4 of RFC 8259) |
| `Envelope.UnpackPacked` | telegram-runtime/runtime/account/session_crypto.py:97-118 | a blob packs exactly when its key version has at most 4300 digits and its header at most 65535 bytes, and unpacking then gives it back |
| `Envelope.HeaderSpelled` | telegram-runtime/runtime/account/session_crypto.py:98-103 | the header text, field by field |
| `Envelope.PackedBytes` | telegram-runtime/runtime/account/session_crypto.py:97-104 | the packed bytes: TGSE1, the length of the header in two bytes, the header, the ciphertext |
| `Envelope.NotAnEnvelopeIff` | telegram-runtime/runtime/account/session_crypto.py:107-108 | exactly what does not start with TGSE1 is no envelope |
| `Envelope.PackInjective` | telegram-runtime/runtime/account/session_crypto.py:97-104 | no two blobs pack to the same bytes |

## Left out

- Liveness: nothing moves `retry_wait` to `ready`, and a job whose worker dies in `leased` stays there.
- Termination of `run_once`: a rate-blocked job without a next attempt time is due again at once. `AccountRunner.SendWhileDue` runs on a finite sequence of turns and reports when they run out.
- Whether a recorded result belongs to the attempt that is named: `record_result` looks at the status only, and so does the model.
- The platform's own status writes (operator retry, approval, cancellation in the control plane) are not guarded updates and not part of the protocol; the platform appears only as the inserter of ready jobs. The results on spacing and settled statuses are about the runtime's own steps.
- Policy evaluation and lease generation checks before a send: the gate's decision is arbitrary in every step.
- The halt of a runner is a field of `AccountRunner`; in the protocol a halted worker simply takes no further step.
- The message map prefetch of a drain and the lookup of target messages before an edit or delete: both results are parameters.
- Jobs written with kind `send_message` never get a message-map row, in the code as in the model.
- In the protocol a drain takes any batch of unprocessed rows, which covers the ordered and limited one of `next_unprocessed`.
- Column lengths, the hash inside `event_revision` for edits, and the media, transform and fetch details of a plan after it is stored.
- `WorkerHostMain` apart from rule snapshots and cancellation: hosting, status reports, command polling.
- `Heartbeat.LeaseHeartbeat.Run`: the intervals slept are not modelled, only whether stop was called during them.
- `RuntimeController`, `LiveRegistry`, `SendPolicy.check` and filter composition: single-branch decisions that would add easy members.
- UrlFilter.ProcessMessage: does not remove a link preview; the second pass is stated about the text that the first pass leaves, and about entities that are clear of its matches.
- UrlFilter.FilterEntity: says nothing about the text when the entities are not well nested, as FirstPass.
- UrlFilter.FirstPass: says nothing about entities that overlap a replaced link or nest one link in another; the code trims such ranges only partly.
- `KeywordReplaceFilter` with several keywords, `ForwardFormatFilter` and the other message filters.
- `EventProcessor.delete_message` and the rest of the mirroring event loop.
- Requirements.RequirementsInstalled: names are taken as canonical; parsing of requirement lines, markers and specifiers is a parameter; the cached installs and retries around the check are not modelled.
- Snowflake.SnowflakeGenerator.Init: takes the node numbers as given; settings that name only one of the two, and the allocation over Redis, are not modelled.
- Snowflake.SnowflakeGenerator.NextId: the clock is a finite sequence of readings, and a call that uses them up is still waiting; node allocation over Redis and the lock are not modelled.
- MirrorStore.BoundedIsSuffix: a select of the SQL table returns rows in insertion order; `get_messages` hands out the stored list itself, and later changes through that reference are not captured.
- The batch lookups and batch deletes of the mirror store are repetitions of the single ones.
- `OrderedDict.pop` on the cache is taken to remove the key and nothing else.
- TreeBuilder.TraversalToTree: requires distinct ids and rows that carry no children yet; sorting by a key and the menu mapping are not modelled.
- TreeBuilder.RecursiveToTree: starts from the null parent, as every caller does; from a node on a circle the code would not end.
- Album.AlbumAggregator.Add: an emitted group is a value; a caller that changes the returned group is not captured.
- Envelope.UnpackPacked: header values other than integers and escape-free ASCII strings are refused by the model's reader, where `json.loads` reads more; encryption, key providers and the handling of session files are left out.
- The tdata parser, the HTTP and FastAPI layers, migrations, Redis, subprocesses and the user interface.
