/** The delivery pipeline as a protocol: any number of workers interleave the transactions of Store on shared
    tables, with clock readings older than the commit that uses them, lost compare-and-sets, aborted
    transactions, cancellations and crashes at any point (AccountRunner.drain_inbox, send_next, _record). */
module Pipeline {
  import opened Text
  import opened Planner
  import opened Ingest
  import opened JobModel
  import opened Store

  type WorkerId = string

  /** Where a worker stands between two of its transactions. */
  datatype Pc =
    | Idle
    | Drafting(batch: seq<nat>)                                        // inbox rows read, not yet drained
    | Swept(account: string)                                           // stale jobs reclaimed, candidates not yet read
    | Scanning(account: string, candidates: seq<Candidate>, now: Time) // candidates left to try
    | Holding(job: JobId, attemptNo: nat)                              // claim committed, gate ahead
    | Cleared(job: JobId, attemptNo: nat)                              // gate passed, transport ahead
    | Executed(job: JobId, attemptNo: nat, result: DeliveryResult)     // outcome not yet recorded

  /** `seen` is the clock at the worker's last step: its next clock reading is not earlier. */
  datatype Worker = Worker(generation: int, pc: Pc, seen: Time)

  datatype Call = Call(job: JobId, attemptNo: nat)

  /** History: entries into `sending` with the time stamped on the row, and reclaims with the time they read. */
  datatype Mark = Entered(job: JobId, stamp: Time) | Reclaim(jobs: set<JobId>, now: Time)

  datatype System = System(
    clock: Time, tables: Tables, workers: map<WorkerId, Worker>,
    calls: seq<Call>, marks: seq<Mark>)

  datatype Config = Config(rules: string -> seq<RuleSnapshot>, retry: RetryPolicy)

  const INITIAL := System(0.0, EMPTY, map[], [], [])

  datatype Step =
    | Tick(time: Time)
    | Start(w: WorkerId, generation: int)                              // also a crash and restart
    | Arrive(arrival: Arrival)
    | PlatformInsert(row: Job)
    | ReadInbox(w: WorkerId, batch: seq<nat>)
    | Drain(w: WorkerId, view: MappingView, pick: Picker, tenant: string, project: string, now: Time)
    | Sweep(w: WorkerId, account: string, now: Time, stamp: Time)
    | ReadCandidates(w: WorkerId, now: Time)
    | TryNext(w: WorkerId)
    | Gate(w: WorkerId, decision: Decision, now: Time, draw: real, stamp: Time)
    | Send(w: WorkerId, decision: Decision, targets: seq<int>, outcome: TransportOutcome)
    | Record(w: WorkerId, now: Time, draw: real, stamp: Time)
    | Cancel(job: JobId, src: JobStatus, stamp: Time)

  /** The kinds plan_from_job knows; any other raises. */
  function KindOf(text: string): Option<PlanKind> {
    if text == "send" || text == "send_message" then Some(PlanKind.Send)
    else if text == "edit" then Some(EditTarget)
    else if text == "delete" then Some(DeleteTarget)
    else if text == "tombstone" then Some(Tombstone)
    else None
  }

  function Put(s: System, w: WorkerId, pc: Pc): System
    requires w in s.workers
  {
    s.(workers := s.workers[w := s.workers[w].(pc := pc, seen := s.clock)])
  }

  /** A time the worker may have read since its last step. */
  predicate Readable(s: System, w: WorkerId, time: Time) {
    w in s.workers && s.workers[w].seen <= time <= s.clock
  }

  function StaleJobs(jobs: seq<Job>, account: string, now: Time): set<JobId> {
    set j: JobId | 0 <= j < |jobs| && Stale(jobs[j], account, now - SENDING_STALE)
  }

  /** Two clock readings in order: the cutoff is computed first, the rows are stamped later. */
  function DoSweep(s: System, w: WorkerId, account: string, now: Time, stamp: Time): System {
    if !Readable(s, w, now) || !(now <= stamp <= s.clock) || s.workers[w].pc != Idle then s
    else
      Put(s.(tables := ReclaimStale(s.tables, account, now, stamp),
             marks := s.marks + [Reclaim(StaleJobs(s.tables.jobs, account, now), now)]),
          w, Swept(account))
  }

  function DoReadCandidates(s: System, w: WorkerId, now: Time): System {
    if !Readable(s, w, now) || !s.workers[w].pc.Swept? then s
    else
      var account := s.workers[w].pc.account;
      Put(s, w, Scanning(account, Candidates(s.tables.jobs, account, |s.tables.jobs|), now))
  }

  /** An aborted claim is an exception: the worker is idle again and nothing has changed. */
  function DoTryNext(s: System, w: WorkerId): System {
    if w !in s.workers || !s.workers[w].pc.Scanning? then s
    else
      var pc := s.workers[w].pc;
      if pc.candidates == [] || !InRange(pc.candidates[0], s.tables.jobs) then Put(s, w, Idle)
      else
        var (t, outcome) := TryClaim(s.tables, pc.candidates[0], s.workers[w].generation, pc.now);
        match outcome
        case Skipped => Put(s, w, Scanning(pc.account, pc.candidates[1..], pc.now))
        case Conflict => Put(s, w, Idle)
        case Won(job, attemptNo) => Put(s.(tables := t), w, Holding(job, attemptNo))
  }

  /** The policy gate. Whether the row was still leased does not matter to the worker: once allowed, it goes on. */
  function DoGate(cfg: Config, s: System, w: WorkerId, decision: Decision, now: Time, draw: real, stamp: Time): System {
    if !Readable(s, w, stamp) || !s.workers[w].pc.Holding? || s.workers[w].pc.job >= |s.tables.jobs| then s
    else
      var Holding(job, attemptNo) := s.workers[w].pc;
      if KindOf(s.tables.jobs[job].kindText).None? then Put(s, w, Idle)
      else
        match decision
        case BlockedLease => Put(s.(tables := Transition(s.tables, job, Leased, Ready, None, stamp).0), w, Idle)
        case BlockedRate =>
          var next := NextAttemptAt(cfg.retry, attemptNo, now, draw);
          Put(s.(tables := Transition(s.tables, job, Leased, Ready, next, stamp).0), w, Idle)
        case Allow =>
          var (t, moved) := Transition(s.tables, job, Leased, Sending, None, stamp);
          Put(s.(tables := t, marks := if moved then s.marks + [Entered(job, stamp)] else s.marks), w,
              Cleared(job, attemptNo))
        case _ => Put(s.(tables := Transition(s.tables, job, Leased, Blocked, None, stamp).0), w, Idle)
  }

  function DoSend(s: System, w: WorkerId, decision: Decision, targets: seq<int>, outcome: TransportOutcome): System {
    if w !in s.workers || !s.workers[w].pc.Cleared? || s.workers[w].pc.job >= |s.tables.jobs| then s
    else
      var Cleared(job, attemptNo) := s.workers[w].pc;
      match KindOf(s.tables.jobs[job].kindText)
      case None => s
      case Some(kind) =>
        var (result, called) := Execute(kind, decision, targets, outcome);
        Put(s.(calls := if called then s.calls + [Call(job, attemptNo)] else s.calls), w,
            Executed(job, attemptNo, result))
  }

  function DoRecord(cfg: Config, s: System, w: WorkerId, now: Time, draw: real, stamp: Time): System {
    if !Readable(s, w, stamp) || !s.workers[w].pc.Executed? then s
    else
      var Executed(job, attemptNo, result) := s.workers[w].pc;
      Put(s.(tables := RecordResult(s.tables, job, attemptNo, RecordFor(result, attemptNo, cfg.retry, now, draw),
                                    stamp).0), w, Idle)
  }

  function DoReadInbox(s: System, w: WorkerId, batch: seq<nat>): System {
    if w !in s.workers || s.workers[w].pc != Idle || !BatchInRange(batch, s.tables.inbox.rows)
       || exists i :: 0 <= i < |batch| && s.tables.inbox.rows[batch[i]].processed
    then s
    else Put(s, w, Drafting(batch))
  }

  function DoDrain(cfg: Config, s: System, w: WorkerId, view: MappingView, pick: Picker, tenant: string,
                   project: string,
                   now: Time): System
  {
    if !Readable(s, w, now) || !s.workers[w].pc.Drafting? || !BatchInRange(s.workers[w].pc.batch, s.tables.inbox.rows)
      then s
    else
      Put(s.(tables := DrainRows(s.tables, s.workers[w].pc.batch, PlanContext(cfg.rules, view, pick), tenant, project,
                                 now)), w, Idle)
  }

  /** A step that is not possible in s changes nothing. */
  function Apply(cfg: Config, s: System, step: Step): System {
    match step
    case Tick(time) => if time >= s.clock then s.(clock := time) else s
    case Start(w, generation) => s.(workers := s.workers[w := Worker(generation, Idle, s.clock)])
    case Arrive(arrival) => s.(tables := s.tables.(inbox := IngestTables(s.tables.inbox, arrival)))
    case PlatformInsert(row) =>
      if row.attemptCount == 0 && row.status == Ready
      then s.(tables := s.tables.(jobs := InsertJob(s.tables.jobs, row))) else s
    case ReadInbox(w, batch) => DoReadInbox(s, w, batch)
    case Drain(w, view, pick, tenant, project, now) => DoDrain(cfg, s, w, view, pick, tenant, project, now)
    case Sweep(w, account, now, stamp) => DoSweep(s, w, account, now, stamp)
    case ReadCandidates(w, now) => DoReadCandidates(s, w, now)
    case TryNext(w) => DoTryNext(s, w)
    case Gate(w, decision, now, draw, stamp) => DoGate(cfg, s, w, decision, now, draw, stamp)
    case Send(w, decision, targets, outcome) => DoSend(s, w, decision, targets, outcome)
    case Record(w, now, draw, stamp) => DoRecord(cfg, s, w, now, draw, stamp)
    case Cancel(job, src, stamp) =>
      if src in {Ready, RetryWait, Leased} && stamp <= s.clock
      then s.(tables := Transition(s.tables, job, src, Cancelled, None, stamp).0) else s
  }

  function Run(cfg: Config, s: System, steps: seq<Step>): System {
    if steps == [] then s else Apply(cfg, Run(cfg, s, steps[..|steps| - 1]), steps[|steps| - 1])
  }

  // ---------- the invariant ----------

  ghost predicate TablesOk(cfg: Config, t: Tables) {
    KeysUnique(t.jobs) && AttemptsNumbered(t) && RowsHandled(t, cfg.rules) && RowsUnique(t.inbox.rows)
  }

  ghost predicate CandidateOk(c: Candidate, jobs: seq<Job>) {
    c.job < |jobs| && c.attemptCount <= jobs[c.job].attemptCount
  }

  ghost predicate PcOk(pc: Pc, t: Tables) {
    match pc
    case Drafting(batch) => BatchInRange(batch, t.inbox.rows)
    case Scanning(_, cs, _) => forall i :: 0 <= i < |cs| ==> CandidateOk(cs[i], t.jobs)
    case Holding(j, n) => j < |t.jobs| && n == t.jobs[j].attemptCount >= 1 && t.jobs[j].status in {Leased, Cancelled}
    case Cleared(j, n) => j < |t.jobs| && 1 <= n <= t.jobs[j].attemptCount
    case Executed(j, n, _) => j < |t.jobs| && 1 <= n <= t.jobs[j].attemptCount
    case _ => true
  }

  ghost predicate WorkersOk(s: System) {
    forall w :: w in s.workers ==> PcOk(s.workers[w].pc, s.tables) && s.workers[w].seen <= s.clock
  }

  /** The attempt a worker may still make a transport call for. */
  function Owned(pc: Pc): Option<Call> {
    match pc
    case Holding(j, n) => Some(Call(j, n))
    case Cleared(j, n) => Some(Call(j, n))
    case _ => None
  }

  /** No attempt is owned twice, and none that has made its call. */
  ghost predicate OwnersOk(workers: map<WorkerId, Worker>, calls: seq<Call>) {
    && (forall w, v :: w in workers && v in workers && w != v && Owned(workers[w].pc).Some? ==>
          Owned(workers[w].pc) != Owned(workers[v].pc))
    && (forall w :: w in workers && Owned(workers[w].pc).Some? ==> Owned(workers[w].pc).value !in calls)
  }

  ghost predicate CallsOk(calls: seq<Call>, jobs: seq<Job>) {
    && (forall i, k :: 0 <= i < k < |calls| ==> calls[i] != calls[k])
    && (forall i :: 0 <= i < |calls| ==>
        calls[i].job < |jobs| && 1 <= calls[i].attemptNo <= jobs[calls[i].job].attemptCount)
  }

  /** Mark m reclaims job j and had read a clock more than 300 s past `stamp`. */
  ghost predicate Reclaims(marks: seq<Mark>, m: int, j: JobId, stamp: Time) {
    0 <= m < |marks| && marks[m].Reclaim? && j in marks[m].jobs && marks[m].now > stamp + SENDING_STALE
  }

  predicate AtRest(status: JobStatus) {
    status in {Pending, WaitingApproval, Ready, Leased}
  }

  /** An entry into `sending` was either reclaimed since, or the job has not left the send. */
  ghost predicate EntryOk(marks: seq<Mark>, i: int, jobs: seq<Job>)
    requires 0 <= i < |marks|
  {
    marks[i].Entered? ==>
      var j := marks[i].job;
      && j < |jobs|
      && ((exists m :: i < m && Reclaims(marks, m, j, marks[i].stamp))
          || (!AtRest(jobs[j].status) && (jobs[j].status == Sending ==> jobs[j].updatedAt == marks[i].stamp)))
  }

  ghost predicate EntriesOk(marks: seq<Mark>, jobs: seq<Job>) {
    forall i :: 0 <= i < |marks| ==> EntryOk(marks, i, jobs)
  }

  predicate HeldAfter(mark: Mark, pc: Pc) {
    mark.Reclaim? && pc.Holding? && pc.job in mark.jobs
  }

  /** Reclaims read the past, and a worker holding a job started after every reclaim of it. */
  ghost predicate ReclaimsSeen(clock: Time, workers: map<WorkerId, Worker>, marks: seq<Mark>) {
    && (forall m :: 0 <= m < |marks| && marks[m].Reclaim? ==> marks[m].now <= clock)
    && (forall m, w :: 0 <= m < |marks| && w in workers && HeldAfter(marks[m], workers[w].pc) ==>
          marks[m].now <= workers[w].seen)
  }

  /** Two entries of one job into `sending` lie more than 300 s apart, with a reclaim of the job between them. */
  ghost predicate EntriesApart(marks: seq<Mark>) {
    forall i, k :: 0 <= i < k < |marks| && marks[i].Entered? && marks[k].Entered? && marks[i].job == marks[k].job ==>
      marks[k].stamp > marks[i].stamp + SENDING_STALE
      && exists m :: i < m < k && Reclaims(marks, m, marks[i].job, marks[i].stamp)
  }

  ghost predicate Inv(cfg: Config, s: System) {
    && TablesOk(cfg, s.tables)
    && WorkersOk(s)
    && OwnersOk(s.workers, s.calls)
    && CallsOk(s.calls, s.tables.jobs)
    && EntriesOk(s.marks, s.tables.jobs)
    && ReclaimsSeen(s.clock, s.workers, s.marks)
    && EntriesApart(s.marks)
  }
}
