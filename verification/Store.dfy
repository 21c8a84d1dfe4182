/** The runtime's tables and the transactions of runtime/storage/repos.py on them.
    Every transaction is a function on table values; class RuntimeStore performs it on its fields.
    Job rows are numbered in order of creation; rows are never removed. */
module Store {
  import opened Text
  import opened Planner
  import opened Ingest
  import opened JobModel

  const SENDING_STALE: Time := 300.0

  type JobId = nat

  /** `kindText` is the kind column: the platform also writes "send_message". */
  datatype Job = Job(
    tenant: string, project: string, key: string, kindText: string, plan: DeliveryPlan,
    status: JobStatus, attemptCount: nat,
    nextAttemptAt: Option<Time>, floodWaitUntil: Option<Time>, lastError: Option<ErrorClass>,
    updatedAt: Time)

  datatype AttemptResult = Abandoned | Recorded(status: JobStatus)

  datatype Attempt = Attempt(
    workerGeneration: int, startedAt: Time, finishedAt: Option<Time>,
    result: Option<AttemptResult>, errorClass: Option<ErrorClass>)

  /** The unique columns of message_map; the runtime writes part 0 only. */
  datatype MapKey = MapKey(tenant: string, project: string, source: RouteSource)

  datatype MapRow = MapRow(mapped: MappedMessage, revision: int, job: JobId)

  datatype Tables = Tables(
    inbox: InboxTables,
    jobs: seq<Job>,
    attempts: map<(JobId, nat), Attempt>,
    mapped: map<MapKey, MapRow>)

  const EMPTY := Tables(InboxTables(map[], []), [], map[], map[])

  // ---------- plan creation ----------

  predicate HasKey(jobs: seq<Job>, key: string) {
    exists i :: 0 <= i < |jobs| && jobs[i].key == key
  }

  function JobFromPlan(plan: DeliveryPlan, tenant: string, project: string, now: Time): Job {
    Job(tenant, project, IdempotencyKey(plan), PlanKindText(plan.kind), plan,
        if plan.requiresApproval then WaitingApproval else Ready, 0, None, None, None, now)
  }

  /** An insert under the unique idempotency key; a conflict is skipped. */
  function InsertJob(jobs: seq<Job>, job: Job): seq<Job> {
    if HasKey(jobs, job.key) then jobs else jobs + [job]
  }

  function InsertPlans(jobs: seq<Job>, plans: seq<DeliveryPlan>, tenant: string, project: string, now: Time): seq<Job> {
    if plans == [] then jobs
    else InsertJob(InsertPlans(jobs, plans[..|plans| - 1], tenant, project, now),
                   JobFromPlan(plans[|plans| - 1], tenant, project, now))
  }

  /** What a drain batch is planned with: the rules by receiving account, the prefetched map and the sender draws. */
  datatype PlanContext = PlanContext(rules: string -> seq<RuleSnapshot>, view: MappingView, pick: Picker)

  function PlansFor(e: SourceEvent, c: PlanContext): seq<DeliveryPlan> {
    Plans(e, c.rules(e.accountId), c.view, c.pick)
  }

  function MarkProcessed(rows: seq<InboxRow>, r: nat): (marked: seq<InboxRow>)
    requires r < |rows|
  {
    rows[r := rows[r].(processed := true)]
  }

  predicate BatchInRange(batch: seq<nat>, rows: seq<InboxRow>) {
    forall i :: 0 <= i < |batch| ==> batch[i] < |rows|
  }

  // ---------- the rows to drain next ----------

  /** The order of the inbox query: by ingest sequence, then by creation. */
  predicate Earlier(rows: seq<InboxRow>, r: nat, q: nat)
    requires r < |rows| && q < |rows|
  {
    rows[r].ingestSeq < rows[q].ingestSeq || (rows[r].ingestSeq == rows[q].ingestSeq && r < q)
  }

  /** A row put into its place in an ordered list. */
  function Placed(rows: seq<InboxRow>, order: seq<nat>, r: nat): (placed: seq<nat>)
    requires BatchInRange(order, rows) && r < |rows|
    ensures BatchInRange(placed, rows) && |placed| == |order| + 1
  {
    if order == [] || Earlier(rows, order[|order| - 1], r) then order + [r]
    else Placed(rows, order[..|order| - 1], r) + [order[|order| - 1]]
  }

  function WithRow(rows: seq<InboxRow>, order: seq<nat>, r: nat): (longer: seq<nat>)
    requires BatchInRange(order, rows) && r < |rows|
    ensures BatchInRange(longer, rows)
  {
    if rows[r].processed then order else Placed(rows, order, r)
  }

  /** The unprocessed rows among the first n, in order. */
  function Unprocessed(rows: seq<InboxRow>, n: nat): (order: seq<nat>)
    requires n <= |rows|
    ensures BatchInRange(order, rows)
    ensures ListsUnprocessed(rows, order, n)
  {
    if n == 0 then []
    else
      var before := Unprocessed(rows, n - 1);
      OneMoreUnprocessed(rows, before, n - 1);
      WithRow(rows, before, n - 1)
  }

  /** EventInboxRepository.next_unprocessed. */
  function NextBatch(rows: seq<InboxRow>, limit: nat): (batch: seq<nat>)
    ensures BatchInRange(batch, rows)
  {
    var order := Unprocessed(rows, |rows|);
    if |order| <= limit then order else order[..limit]
  }

  predicate Ordered(rows: seq<InboxRow>, order: seq<nat>) {
    BatchInRange(order, rows) && forall i, k :: 0 <= i < k < |order| ==> Earlier(rows, order[i], order[k])
  }

  /** Unprocessed rows in order, at most `limit`, and none left out that comes before one of them or still fits. */
  ghost predicate IsNextBatch(rows: seq<InboxRow>, batch: seq<nat>, limit: nat) {
    && Ordered(rows, batch) && |batch| <= limit
    && (forall i :: 0 <= i < |batch| ==> !rows[batch[i]].processed)
    && (forall r: nat :: r < |rows| && !rows[r].processed && r !in batch ==>
          |batch| == limit && forall i :: 0 <= i < |batch| ==> Earlier(rows, batch[i], r))
  }

  lemma {:induction false} PlacedInOrder(rows: seq<InboxRow>, order: seq<nat>, r: nat)
    requires Ordered(rows, order) && r < |rows| && r !in order
    ensures Ordered(rows, Placed(rows, order, r))
    ensures forall q :: q in Placed(rows, order, r) <==> q == r || q in order
  {
    if order != [] && !Earlier(rows, order[|order| - 1], r) {
      var front, last := order[..|order| - 1], order[|order| - 1];
      PlacedInOrder(rows, front, r);
      var placed := Placed(rows, front, r);
      assert order == front + [last];
      forall i | 0 <= i < |placed|
        ensures Earlier(rows, placed[i], last)
      {
        assert placed[i] in placed;
      }
    }
  }

  /** The list holds exactly the unprocessed rows among the first n. */
  ghost predicate ListsUnprocessed(rows: seq<InboxRow>, order: seq<nat>, n: nat)
    requires n <= |rows|
  {
    Ordered(rows, order) && forall r: nat :: r in order <==> r < n && !rows[r].processed
  }

  lemma OneMoreUnprocessed(rows: seq<InboxRow>, order: seq<nat>, n: nat)
    requires n < |rows| && ListsUnprocessed(rows, order, n)
    ensures ListsUnprocessed(rows, WithRow(rows, order, n), n + 1)
  {
    assert n !in order;
    PlacedInOrder(rows, order, n);
  }

  /** The query yields the earliest unprocessed rows, and as many as the limit allows. */
  lemma {:induction false} NextBatchIsNext(rows: seq<InboxRow>, limit: nat)
    ensures IsNextBatch(rows, NextBatch(rows, limit), limit)
  {
    var order, batch := Unprocessed(rows, |rows|), NextBatch(rows, limit);
    forall i | 0 <= i < |batch|
      ensures !rows[batch[i]].processed
    {
      assert order[i] in order;
    }
    forall r: nat | r < |rows| && !rows[r].processed && r !in batch
      ensures |batch| == limit && forall i :: 0 <= i < |batch| ==> Earlier(rows, batch[i], r)
    {
      assert r in order;
      var k :| 0 <= k < |order| && order[k] == r;
      assert k >= |batch|;
    }
  }

  // ---------- drain ----------

  function DrainRow(t: Tables, row: nat, c: PlanContext, tenant: string, project: string, now: Time): Tables
    requires row < |t.inbox.rows|
  {
    t.(inbox := t.inbox.(rows := MarkProcessed(t.inbox.rows, row)),
       jobs := InsertPlans(t.jobs, PlansFor(t.inbox.rows[row].event, c), tenant, project, now))
  }

  /** One commit for the whole batch. */
  function DrainRows(t: Tables, batch: seq<nat>, c: PlanContext, tenant: string, project: string,
                     now: Time): (r: Tables)
    requires BatchInRange(batch, t.inbox.rows)
    ensures |r.inbox.rows| == |t.inbox.rows|
  {
    if batch == [] then t
    else DrainRow(DrainRows(t, batch[..|batch| - 1], c, tenant, project, now), batch[|batch| - 1], c, tenant, project,
                  now)
  }

  // ---------- claim ----------

  predicate Stale(job: Job, account: string, cutoff: Time) {
    job.plan.accountId == account && job.status == Sending && job.updatedAt < cutoff
  }

  function Reclaimed(job: Job, account: string, cutoff: Time, stamp: Time): Job {
    if Stale(job, account, cutoff) then job.(status := Ready, updatedAt := stamp) else job
  }

  /** Jobs stuck in `sending` go back to `ready`; their open attempts are abandoned. */
  function ReclaimStale(t: Tables, account: string, now: Time, stamp: Time): Tables {
    var cutoff := now - SENDING_STALE;
    t.(jobs := seq(|t.jobs|, i requires 0 <= i < |t.jobs| => Reclaimed(t.jobs[i], account, cutoff, stamp)),
       attempts := map a | a in t.attempts ::
         if a.0 < |t.jobs| && Stale(t.jobs[a.0], account, cutoff) && t.attempts[a].finishedAt.None?
         then t.attempts[a].(result := Some(Abandoned), finishedAt := Some(stamp)) else t.attempts[a])
  }

  /** A row as read by the candidate query; it may be outdated when the claim is tried. */
  datatype Candidate = Candidate(job: JobId, attemptCount: nat, nextAttemptAt: Option<Time>,
                                 floodWaitUntil: Option<Time>)

  /** The account's ready jobs among the first n, oldest first. */
  function Candidates(jobs: seq<Job>, account: string, n: nat): (cs: seq<Candidate>)
    requires n <= |jobs|
    ensures CandidatesInRange(cs, jobs)
  {
    if n == 0 then []
    else
      var job := jobs[n - 1];
      Candidates(jobs, account, n - 1)
      + if job.plan.accountId == account && job.status == Ready
        then [Candidate(n - 1, job.attemptCount, job.nextAttemptAt, job.floodWaitUntil)] else []
  }

  predicate Due(c: Candidate, now: Time) {
    && (c.nextAttemptAt.Some? ==> c.nextAttemptAt.value <= now)
    && (c.floodWaitUntil.Some? ==> c.floodWaitUntil.value <= now)
  }

  datatype ClaimOutcome = Skipped | Conflict | Won(job: JobId, attemptNo: nat)

  predicate InRange(c: Candidate, jobs: seq<Job>) {
    c.job < |jobs|
  }

  /** One candidate: due test on the values read, status compare-and-set, count and attempt insert in one
      transaction. The unique (job, attempt_no) key aborts it when the count was outdated. */
  function TryClaim(t: Tables, c: Candidate, generation: int, now: Time): (Tables, ClaimOutcome)
    requires InRange(c, t.jobs)
  {
    var attemptNo := c.attemptCount + 1;
    if !Due(c, now) || t.jobs[c.job].status != Ready then (t, Skipped)
    else if (c.job, attemptNo) in t.attempts then (t, Conflict)
    else
      (t.(jobs := t.jobs[c.job := t.jobs[c.job].(status := Leased, attemptCount := attemptNo, updatedAt := now)],
          attempts := t.attempts[(c.job, attemptNo) := Attempt(generation, now, None, None, None)]),
       Won(c.job, attemptNo))
  }

  predicate CandidatesInRange(cs: seq<Candidate>, jobs: seq<Job>) {
    forall i :: 0 <= i < |cs| ==> InRange(cs[i], jobs)
  }

  /** The candidates in turn until one is won or the transaction is aborted. */
  function ClaimFirst(t: Tables, cs: seq<Candidate>, generation: int, now: Time): (Tables, ClaimOutcome)
    requires CandidatesInRange(cs, t.jobs)
  {
    if cs == [] then (t, Skipped)
    else
      var (next, outcome) := TryClaim(t, cs[0], generation, now);
      if outcome == Skipped then ClaimFirst(t, cs[1..], generation, now) else (next, outcome)
  }

  // ---------- status updates ----------

  function MovedJob(job: Job, dst: JobStatus, next: Option<Time>, flood: Option<Time>, error: Option<ErrorClass>,
                    stamp: Time): Job {
    job.(status := dst, nextAttemptAt := next, floodWaitUntil := flood, lastError := error, updatedAt := stamp)
  }

  /** The guarded update of `transition`: false when the job is not in `src`. */
  function Transition(t: Tables, job: JobId, src: JobStatus, dst: JobStatus, next: Option<Time>,
                      stamp: Time): (Tables, bool) {
    if job < |t.jobs| && t.jobs[job].status == src
    then (t.(jobs := t.jobs[job := MovedJob(t.jobs[job], dst, next, None, None, stamp)]), true)
    else (t, false)
  }

  function MapKeyOf(job: Job): MapKey {
    MapKey(job.tenant, job.project,
           RouteSource(job.plan.routeId, job.plan.sourceScope, job.plan.sourceChatId, job.plan.sourceMessageId))
  }

  /** Finish the attempt, move the job and - once per route and source - write the message map. */
  function RecordResult(t: Tables, job: JobId, attemptNo: nat, r: ResultRecord, stamp: Time): (Tables, bool)
  {
    if job >= |t.jobs| || t.jobs[job].status != Sending then (t, false)
    else
      var row := t.jobs[job];
      var attempts := if (job, attemptNo) !in t.attempts then t.attempts
                      else t.attempts[(job, attemptNo) := t.attempts[(job, attemptNo)].(
                             finishedAt := Some(stamp), result := Some(Recorded(r.newStatus)),
                               errorClass := r.errorClass)];
      var writesMap := r.newStatus == Succeeded && row.kindText == "send" && r.targetMessageId.Some?
                       && MapKeyOf(row) !in t.mapped;
      var mapped := if !writesMap then t.mapped
                    else t.mapped[MapKeyOf(row) :=
                           MapRow(MappedMessage(r.targetMessageId.value, row.plan.accountId), row.plan.revision, job)];
      (t.(jobs := t.jobs[job := MovedJob(row, r.newStatus, r.nextAttemptAt, r.floodWaitUntil, r.errorClass, stamp)],
          attempts := attempts, mapped := mapped), true)
  }

  // ---------- what every transaction keeps ----------

  /** At most one job per idempotency key. */
  ghost predicate KeysUnique(jobs: seq<Job>) {
    forall i, k :: 0 <= i < k < |jobs| ==> jobs[i].key != jobs[k].key
  }

  /** The attempts of every job are numbered exactly 1..attempt_count. */
  ghost predicate AttemptsNumbered(t: Tables) {
    forall j: JobId, n: nat :: (j, n) in t.attempts <==> j < |t.jobs| && 1 <= n <= t.jobs[j].attemptCount
  }

  /** Later tables only add jobs and never lower an attempt count or change a job's identity. */
  ghost predicate JobsGrow(before: seq<Job>, after: seq<Job>) {
    && |before| <= |after|
    && forall i :: 0 <= i < |before| ==>
         && before[i].attemptCount <= after[i].attemptCount
         && before[i].key == after[i].key && before[i].plan == after[i].plan && before[i].kindText == after[i].kindText
  }

  /** The jobs of `before` first and as they were, then new ones that nobody has claimed. */
  ghost predicate AddsFresh(before: seq<Job>, after: seq<Job>) {
    && before <= after
    && forall i :: |before| <= i < |after| ==> after[i].attemptCount == 0 && after[i].status in {Ready, WaitingApproval}
  }

  lemma InsertJobKeeps(jobs: seq<Job>, job: Job)
    requires KeysUnique(jobs) && job.attemptCount == 0 && job.status in {Ready, WaitingApproval}
    ensures KeysUnique(InsertJob(jobs, job)) && AddsFresh(jobs, InsertJob(jobs, job))
            && HasKey(InsertJob(jobs, job), job.key)
  {
    if !HasKey(jobs, job.key) {
      assert (jobs + [job])[|jobs|] == job;
    }
  }

  lemma AddsFreshTwice(a: seq<Job>, b: seq<Job>, c: seq<Job>)
    requires AddsFresh(a, b) && AddsFresh(b, c)
    ensures AddsFresh(a, c)
  {
    assert forall i :: 0 <= i < |b| ==> c[i] == b[i];
  }

  lemma {:induction false} InsertPlansKeeps(jobs: seq<Job>, plans: seq<DeliveryPlan>, tenant: string, project: string,
                                            now: Time)
    requires KeysUnique(jobs)
    ensures KeysUnique(InsertPlans(jobs, plans, tenant, project, now))
    ensures AddsFresh(jobs, InsertPlans(jobs, plans, tenant, project, now))
  {
    if plans != [] {
      var front, job := plans[..|plans| - 1], JobFromPlan(plans[|plans| - 1], tenant, project, now);
      InsertPlansKeeps(jobs, front, tenant, project, now);
      var before := InsertPlans(jobs, front, tenant, project, now);
      InsertJobKeeps(before, job);
      AddsFreshTwice(jobs, before, InsertJob(before, job));
    }
  }

  lemma KeyStays(jobs: seq<Job>, job: Job, key: string)
    requires HasKey(jobs, key)
    ensures HasKey(InsertJob(jobs, job), key)
  {
    HasKeyGrows(jobs, InsertJob(jobs, job));
  }

  lemma InsertedHasKey(jobs: seq<Job>, job: Job)
    ensures HasKey(InsertJob(jobs, job), job.key)
  {
    if !HasKey(jobs, job.key) {
      assert (jobs + [job])[|jobs|] == job;
    }
  }

  /** Every plan's key has a job after the inserts. */
  lemma {:induction false} InsertPlansCovers(jobs: seq<Job>, plans: seq<DeliveryPlan>, tenant: string,
                                             project: string, now: Time,
                                             i: nat)
    requires i < |plans|
    ensures HasKey(InsertPlans(jobs, plans, tenant, project, now), JobFromPlan(plans[i], tenant, project, now).key)
  {
    var n := |plans| - 1;
    var before, job := InsertPlans(jobs, plans[..n], tenant, project, now), JobFromPlan(plans[n], tenant, project, now);
    if i == n {
      InsertedHasKey(before, job);
    } else {
      InsertPlansCovers(jobs, plans[..n], tenant, project, now, i);
      KeyStays(before, job, JobFromPlan(plans[i], tenant, project, now).key);
    }
  }

  lemma HasKeyGrows(before: seq<Job>, after: seq<Job>)
    requires |before| <= |after| && forall i :: 0 <= i < |before| ==> before[i].key == after[i].key
    ensures forall key :: HasKey(before, key) ==> HasKey(after, key)
  {
    forall key | HasKey(before, key)
      ensures HasKey(after, key)
    {
      var i :| 0 <= i < |before| && before[i].key == key;
      assert after[i].key == key;
    }
  }

  /** Every processed row has a job for each key its event must produce. */
  ghost predicate RowHandled(row: InboxRow, jobs: seq<Job>, rules: string -> seq<RuleSnapshot>) {
    row.processed ==> forall key :: key in WantedKeys(row.event, rules(row.event.accountId)) ==> HasKey(jobs, key)
  }

  ghost predicate RowsHandled(t: Tables, rules: string -> seq<RuleSnapshot>) {
    forall r :: 0 <= r < |t.inbox.rows| ==> RowHandled(t.inbox.rows[r], t.jobs, rules)
  }

  lemma DrainRowKeeps(t: Tables, row: nat, c: PlanContext, tenant: string, project: string, now: Time)
    requires row < |t.inbox.rows| && KeysUnique(t.jobs)
    ensures KeysUnique(DrainRow(t, row, c, tenant, project, now).jobs)
    ensures AddsFresh(t.jobs, DrainRow(t, row, c, tenant, project, now).jobs)
    ensures RowHandled(DrainRow(t, row, c, tenant, project, now).inbox.rows[row],
                       DrainRow(t, row, c, tenant, project, now).jobs, c.rules)
  {
    var after := DrainRow(t, row, c, tenant, project, now);
    var e := t.inbox.rows[row].event;
    var plans := PlansFor(e, c);
    InsertPlansKeeps(t.jobs, plans, tenant, project, now);
    PlannedKeysAreWantedKeys(e, c.rules(e.accountId), c.view, c.pick);
    forall key | key in WantedKeys(e, c.rules(e.accountId))
      ensures HasKey(after.jobs, key)
    {
      assert key in KeysOf(plans);
      var p :| p in plans && IdempotencyKey(p) == key;
      var i :| 0 <= i < |plans| && plans[i] == p;
      InsertPlansCovers(t.jobs, plans, tenant, project, now, i);
    }
  }

  lemma HandledGrows(row: InboxRow, before: seq<Job>, after: seq<Job>, rules: string -> seq<RuleSnapshot>)
    requires RowHandled(row, before, rules) && before <= after
    ensures RowHandled(row, after, rules)
  {
    HasKeyGrows(before, after);
  }

  lemma DrainRowHandles(t: Tables, row: nat, c: PlanContext, tenant: string, project: string, now: Time)
    requires row < |t.inbox.rows| && KeysUnique(t.jobs) && RowsHandled(t, c.rules)
    ensures RowsHandled(DrainRow(t, row, c, tenant, project, now), c.rules)
  {
    var after := DrainRow(t, row, c, tenant, project, now);
    DrainRowKeeps(t, row, c, tenant, project, now);
    forall r | 0 <= r < |after.inbox.rows|
      ensures RowHandled(after.inbox.rows[r], after.jobs, c.rules)
    {
      if r != row {
        HandledGrows(t.inbox.rows[r], t.jobs, after.jobs, c.rules);
      }
    }
  }

  lemma {:induction false} DrainAddsFresh(t: Tables, batch: seq<nat>, c: PlanContext, tenant: string, project: string,
                                          now: Time)
    requires BatchInRange(batch, t.inbox.rows) && KeysUnique(t.jobs)
    ensures KeysUnique(DrainRows(t, batch, c, tenant, project, now).jobs)
    ensures AddsFresh(t.jobs, DrainRows(t, batch, c, tenant, project, now).jobs)
  {
    if batch != [] {
      var front, row := batch[..|batch| - 1], batch[|batch| - 1];
      DrainAddsFresh(t, front, c, tenant, project, now);
      var before := DrainRows(t, front, c, tenant, project, now);
      DrainRowKeeps(before, row, c, tenant, project, now);
      AddsFreshTwice(t.jobs, before.jobs, DrainRow(before, row, c, tenant, project, now).jobs);
    }
  }

  lemma {:induction false} DrainHandles(t: Tables, batch: seq<nat>, c: PlanContext, tenant: string, project: string,
                                        now: Time)
    requires BatchInRange(batch, t.inbox.rows) && KeysUnique(t.jobs) && RowsHandled(t, c.rules)
    ensures RowsHandled(DrainRows(t, batch, c, tenant, project, now), c.rules)
  {
    if batch != [] {
      var front := batch[..|batch| - 1];
      DrainHandles(t, front, c, tenant, project, now);
      DrainAddsFresh(t, front, c, tenant, project, now);
      DrainRowHandles(DrainRows(t, front, c, tenant, project, now), batch[|batch| - 1], c, tenant, project, now);
    }
  }

  /** Exactly the rows of the batch are marked. */
  ghost predicate Marked(before: seq<InboxRow>, after: seq<InboxRow>, batch: seq<nat>) {
    && |after| == |before|
    && forall r :: 0 <= r < |before| ==> after[r] == before[r].(processed := before[r].processed || r in batch)
  }

  lemma MarkPush(before: seq<InboxRow>, after: seq<InboxRow>, batch: seq<nat>, row: nat)
    requires Marked(before, after, batch) && row < |after|
    ensures Marked(before, MarkProcessed(after, row), batch + [row])
  {}

  /** A drain marks its batch, touches no other row and no other table than the jobs. */
  lemma {:induction false} DrainMarks(t: Tables, batch: seq<nat>, c: PlanContext, tenant: string, project: string,
                                      now: Time)
    requires BatchInRange(batch, t.inbox.rows)
    ensures OnlyMarked(t, DrainRows(t, batch, c, tenant, project, now), batch)
  {
    if batch == [] {
      NothingMarked(t);
    } else {
      var front, row := batch[..|batch| - 1], batch[|batch| - 1];
      assert batch == front + [row];
      DrainMarks(t, front, c, tenant, project, now);
      MarksOneMore(t, DrainRows(t, front, c, tenant, project, now), front, row, c, tenant, project, now);
    }
  }

  lemma NothingMarked(t: Tables)
    ensures OnlyMarked(t, t, [])
  {}

  ghost predicate OnlyMarked(t: Tables, after: Tables, batch: seq<nat>) {
    && Marked(t.inbox.rows, after.inbox.rows, batch)
    && after.attempts == t.attempts && after.mapped == t.mapped && after.inbox.sources == t.inbox.sources
  }

  lemma MarksOneMore(t: Tables, before: Tables, batch: seq<nat>, row: nat, c: PlanContext, tenant: string,
                     project: string, now: Time)
    requires OnlyMarked(t, before, batch) && row < |before.inbox.rows|
    ensures OnlyMarked(t, DrainRow(before, row, c, tenant, project, now), batch + [row])
  {
    MarkPush(t.inbox.rows, before.inbox.rows, batch, row);
  }

  lemma {:induction false} DrainKeeps(t: Tables, batch: seq<nat>, c: PlanContext, tenant: string, project: string,
                                      now: Time)
    requires BatchInRange(batch, t.inbox.rows)
    requires KeysUnique(t.jobs) && RowsHandled(t, c.rules)
    ensures var after := DrainRows(t, batch, c, tenant, project, now);
            && KeysUnique(after.jobs) && RowsHandled(after, c.rules) && AddsFresh(t.jobs, after.jobs)
            && after.attempts == t.attempts && after.mapped == t.mapped && after.inbox.sources == t.inbox.sources
            && Marked(t.inbox.rows, after.inbox.rows, batch)
  {
    DrainAddsFresh(t, batch, c, tenant, project, now);
    DrainHandles(t, batch, c, tenant, project, now);
    DrainMarks(t, batch, c, tenant, project, now);
  }

  lemma ReclaimKeeps(t: Tables, account: string, now: Time, stamp: Time)
    requires AttemptsNumbered(t) && KeysUnique(t.jobs)
    ensures var after := ReclaimStale(t, account, now, stamp);
            AttemptsNumbered(after) && KeysUnique(after.jobs) && JobsGrow(t.jobs, after.jobs)
              && |after.jobs| == |t.jobs|
  {
    var after := ReclaimStale(t, account, now, stamp);
    assert after.attempts.Keys == t.attempts.Keys;
    SameCountsKeep(t, after);
  }

  /** The compare-and-set, the count and the insert keep the numbering even for an outdated candidate. */
  lemma TryClaimKeeps(t: Tables, c: Candidate, generation: int, now: Time)
    requires InRange(c, t.jobs) && AttemptsNumbered(t) && KeysUnique(t.jobs)
    requires c.attemptCount <= t.jobs[c.job].attemptCount
    ensures var (after, outcome) := TryClaim(t, c, generation, now);
            && AttemptsNumbered(after) && KeysUnique(after.jobs) && JobsGrow(t.jobs, after.jobs)
              && |after.jobs| == |t.jobs|
            && (outcome.Conflict? <==>
                  Due(c, now) && t.jobs[c.job].status == Ready && c.attemptCount < t.jobs[c.job].attemptCount)
            && (outcome.Won? ==> outcome == Won(c.job, t.jobs[c.job].attemptCount + 1)
                                 && after.jobs[c.job].attemptCount == t.jobs[c.job].attemptCount + 1)
            && (!outcome.Won? ==> after == t)
  {
    var attemptNo := c.attemptCount + 1;
    assert (c.job, attemptNo) in t.attempts <==> c.attemptCount < t.jobs[c.job].attemptCount;
  }

  /** Jobs rewritten in place without touching counts, keys or plans. */
  ghost predicate SameCounts(before: seq<Job>, after: seq<Job>) {
    && |after| == |before|
    && forall i :: 0 <= i < |before| ==>
         && after[i].attemptCount == before[i].attemptCount && after[i].key == before[i].key
         && after[i].plan == before[i].plan && after[i].kindText == before[i].kindText
  }

  lemma SameCountsKeep(t: Tables, after: Tables)
    requires AttemptsNumbered(t) && KeysUnique(t.jobs) && SameCounts(t.jobs, after.jobs)
             && after.attempts.Keys == t.attempts.Keys
    ensures AttemptsNumbered(after) && KeysUnique(after.jobs) && JobsGrow(t.jobs, after.jobs)
  {
    forall j: JobId, n: nat
      ensures (j, n) in after.attempts <==> j < |after.jobs| && 1 <= n <= after.jobs[j].attemptCount
    {
      assert (j, n) in after.attempts <==> (j, n) in t.attempts;
    }
  }

  lemma RowRewritten(jobs: seq<Job>, job: JobId, row: Job)
    requires job < |jobs| && row.attemptCount == jobs[job].attemptCount && row.key == jobs[job].key
    requires row.plan == jobs[job].plan && row.kindText == jobs[job].kindText
    ensures SameCounts(jobs, jobs[job := row])
  {}

  lemma {:induction false} TransitionKeeps(t: Tables, job: JobId, src: JobStatus, dst: JobStatus, next: Option<Time>,
                                           stamp: Time)
    requires AttemptsNumbered(t) && KeysUnique(t.jobs)
    ensures var (after, ok) := Transition(t, job, src, dst, next, stamp);
            AttemptsNumbered(after) && KeysUnique(after.jobs) && JobsGrow(t.jobs, after.jobs)
              && |after.jobs| == |t.jobs|
  {
    if job < |t.jobs| && t.jobs[job].status == src {
      RowRewritten(t.jobs, job, MovedJob(t.jobs[job], dst, next, None, None, stamp));
      SameCountsKeep(t, Transition(t, job, src, dst, next, stamp).0);
    }
  }

  lemma RecordKeeps(t: Tables, job: JobId, attemptNo: nat, r: ResultRecord, stamp: Time)
    requires AttemptsNumbered(t) && KeysUnique(t.jobs)
    ensures var (after, ok) := RecordResult(t, job, attemptNo, r, stamp);
            && AttemptsNumbered(after) && KeysUnique(after.jobs) && JobsGrow(t.jobs, after.jobs)
              && |after.jobs| == |t.jobs|
            && (forall k :: k in t.mapped ==> k in after.mapped && after.mapped[k] == t.mapped[k])
  {
    var after := RecordResult(t, job, attemptNo, r, stamp).0;
    assert after.attempts.Keys == t.attempts.Keys;
    SameCountsKeep(t, after);
  }

  /** The row was read from a ready job of the account, and is still what that job says. */
  ghost predicate ReadFrom(c: Candidate, jobs: seq<Job>, account: string, n: nat)
    requires n <= |jobs|
  {
    && c.job < n && jobs[c.job].status == Ready && jobs[c.job].plan.accountId == account
    && c.attemptCount == jobs[c.job].attemptCount
    && c.nextAttemptAt == jobs[c.job].nextAttemptAt && c.floodWaitUntil == jobs[c.job].floodWaitUntil
  }

  ghost predicate Lists(cs: seq<Candidate>, j: JobId) {
    exists i :: 0 <= i < |cs| && cs[i].job == j
  }

  lemma {:induction false} CandidatesAreRead(jobs: seq<Job>, account: string, n: nat)
    requires n <= |jobs|
    ensures forall i :: 0 <= i < |Candidates(jobs, account, n)| ==>
              ReadFrom(Candidates(jobs, account, n)[i], jobs, account, n)
  {
    if n > 0 {
      CandidatesAreRead(jobs, account, n - 1);
    }
  }

  lemma {:induction false} CandidatesAscend(jobs: seq<Job>, account: string, n: nat)
    requires n <= |jobs|
    ensures forall i, k :: 0 <= i < k < |Candidates(jobs, account, n)| ==>
              Candidates(jobs, account, n)[i].job < Candidates(jobs, account, n)[k].job
  {
    if n > 0 {
      CandidatesAscend(jobs, account, n - 1);
      CandidatesAreRead(jobs, account, n - 1);
    }
  }

  lemma {:induction false} CandidateListed(jobs: seq<Job>, account: string, n: nat, j: JobId)
    requires j < n <= |jobs| && jobs[j].status == Ready && jobs[j].plan.accountId == account
    ensures Lists(Candidates(jobs, account, n), j)
  {
    var before, all := Candidates(jobs, account, n - 1), Candidates(jobs, account, n);
    if j < n - 1 {
      CandidateListed(jobs, account, n - 1, j);
      var i :| 0 <= i < |before| && before[i].job == j;
      assert all[i].job == j;
    } else {
      assert all[|before|].job == j;
    }
  }
}
