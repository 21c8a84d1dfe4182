/** The per-account loop of runtime/worker/runner.py on one runtime store, and its place in the protocol: a call of
    send_next that nobody interrupts is a run of protocol steps. */
module Runner {
  import opened Text
  import opened Planner
  import opened JobModel
  import opened Store
  import opened Repositories
  import opened Pipeline
  import opened PipelineSafety
  import PipelineRuns

  datatype Halt = LeaseLost | WorkerError(error: ErrorClass)

  /** What the world answers during one call of send_next: clock readings, the two policy checks, the retry jitter,
      the target messages found and the outcome of the transport. */
  datatype Turn = Turn(
    reclaimNow: Time, reclaimStamp: Time, claimNow: Time,
    decision: Decision, retryNow: Time, draw: real, gateStamp: Time,
    sendDecision: Decision, targets: seq<int>, outcome: TransportOutcome,
    recordNow: Time, recordDraw: real, recordStamp: Time)

  /** Raising leaves the job as it is: the claim is already committed. */
  datatype Acted = NothingDue | RaisedError | ActedOn(job: JobId) | OutOfTurns

  datatype Report = Report(tables: Tables, acted: Acted, halted: Option<Halt>, calls: seq<Call>)

  /** After the claim: unknown kinds raise, then gate, send, record. */
  function SendClaimed(t: Tables, job: JobId, attemptNo: nat, retry: RetryPolicy, turn: Turn): Report
    requires job < |t.jobs|
  {
    match KindOf(t.jobs[job].kindText)
    case None => Report(t, RaisedError, None, [])
    case Some(kind) =>
      match turn.decision
      case BlockedLease =>
        Report(Transition(t, job, Leased, Ready, None, turn.gateStamp).0, ActedOn(job), Some(LeaseLost), [])
      case BlockedRate =>
        var next := NextAttemptAt(retry, attemptNo, turn.retryNow, turn.draw);
        Report(Transition(t, job, Leased, Ready, next, turn.gateStamp).0, ActedOn(job), None, [])
      case Allow =>
        var sending := Transition(t, job, Leased, Sending, None, turn.gateStamp).0;
        var (result, called) := Execute(kind, turn.sendDecision, turn.targets, turn.outcome);
        var record := RecordFor(result, attemptNo, retry, turn.recordNow, turn.recordDraw);
        Report(RecordResult(sending, job, attemptNo, record, turn.recordStamp).0, ActedOn(job),
               HaltFor(result), if called then [Call(job, attemptNo)] else [])
      case _ => Report(Transition(t, job, Leased, Blocked, None, turn.gateStamp).0, ActedOn(job), None, [])
  }

  function HaltFor(result: DeliveryResult): Option<Halt> {
    if Halts(result) then Some(WorkerError(result.errorClass.value)) else None
  }

  function ClaimAndSend(t: Tables, cs: seq<Candidate>, generation: int, retry: RetryPolicy, turn: Turn): Report
    requires CandidatesInRange(cs, t.jobs)
  {
    var (claimed, outcome) := ClaimFirst(t, cs, generation, turn.claimNow);
    match outcome
    case Skipped => Report(claimed, NothingDue, None, [])
    case Conflict => Report(claimed, RaisedError, None, [])
    case Won(job, attemptNo) =>
      ClaimKeepsSize(t, cs, generation, turn.claimNow);
      SendClaimed(claimed, job, attemptNo, retry, turn)
  }

  lemma {:induction false} ClaimKeepsSize(t: Tables, cs: seq<Candidate>, generation: int, now: Time)
    requires CandidatesInRange(cs, t.jobs)
    ensures var (claimed, outcome) := ClaimFirst(t, cs, generation, now);
            |claimed.jobs| == |t.jobs| && (outcome.Won? ==> outcome.job < |t.jobs|) && (!outcome.Won? ==> claimed == t)
  {
    if cs != [] && TryClaim(t, cs[0], generation, now).1 == Skipped {
      ClaimKeepsSize(t, cs[1..], generation, now);
    }
  }

  function SendOnce(t: Tables, account: string, generation: int, retry: RetryPolicy, turn: Turn): Report {
    var swept := ReclaimStale(t, account, turn.reclaimNow, turn.reclaimStamp);
    ClaimAndSend(swept, Candidates(swept.jobs, account, |swept.jobs|), generation, retry, turn)
  }

  /** One poll round of sending: until nothing is due, an error is raised, the runner halts or the turns run out. */
  function SendAll(t: Tables, account: string, generation: int, retry: RetryPolicy, turns: seq<Turn>): Report
    decreases |turns|
  {
    if turns == [] then Report(t, OutOfTurns, None, [])
    else
      var first := SendOnce(t, account, generation, retry, turns[0]);
      if !first.acted.ActedOn? || first.halted.Some? then first
      else
        var rest := SendAll(first.tables, account, generation, retry, turns[1..]);
        After(first.calls, rest)
  }

  ghost predicate Sane(t: Tables) {
    AttemptsNumbered(t) && KeysUnique(t.jobs)
  }

  lemma SendClaimedKeeps(t: Tables, job: JobId, attemptNo: nat, retry: RetryPolicy, turn: Turn)
    requires job < |t.jobs| && Sane(t)
    ensures Sane(SendClaimed(t, job, attemptNo, retry, turn).tables)
  {
    var stamp := turn.gateStamp;
    TransitionKeeps(t, job, Leased, Ready, None, stamp);
    TransitionKeeps(t, job, Leased, Ready, NextAttemptAt(retry, attemptNo, turn.retryNow, turn.draw), stamp);
    TransitionKeeps(t, job, Leased, Blocked, None, stamp);
    TransitionKeeps(t, job, Leased, Sending, None, stamp);
    var sending := Transition(t, job, Leased, Sending, None, stamp).0;
    var kind := KindOf(t.jobs[job].kindText);
    if kind.Some? {
      var result := Execute(kind.value, turn.sendDecision, turn.targets, turn.outcome).0;
      RecordKeeps(sending, job, attemptNo, RecordFor(result, attemptNo, retry, turn.recordNow, turn.recordDraw),
                  turn.recordStamp);
    }
  }

  lemma ClaimFits(t: Tables, account: string, generation: int, turn: Turn)
    requires Sane(t)
    ensures var swept := ReclaimStale(t, account, turn.reclaimNow, turn.reclaimStamp);
            var (claimed, outcome) := ClaimFirst(swept, Candidates(swept.jobs, account, |swept.jobs|), generation,
                                                 turn.claimNow);
            outcome.Won? ==> outcome.job < |claimed.jobs|
  {
    var swept := ReclaimStale(t, account, turn.reclaimNow, turn.reclaimStamp);
    ClaimKeepsSize(swept, Candidates(swept.jobs, account, |swept.jobs|), generation, turn.claimNow);
  }

  lemma {:induction false} DrainIsSane(t: Tables, batch: seq<nat>, c: PlanContext, tenant: string, project: string,
                                       now: Time)
    requires BatchInRange(batch, t.inbox.rows) && Sane(t)
    ensures Sane(DrainRows(t, batch, c, tenant, project, now))
  {
    DrainAddsFresh(t, batch, c, tenant, project, now);
    DrainMarks(t, batch, c, tenant, project, now);
  }

  /** A report with earlier calls in front. */
  function After(calls: seq<Call>, rest: Report): Report {
    rest.(calls := calls + rest.calls)
  }

  lemma AfterBoth(first: seq<Call>, second: seq<Call>, rest: Report)
    ensures After(first, After(second, rest)) == After(first + second, rest)
  {
    assert first + (second + rest.calls) == first + second + rest.calls;
  }

  lemma SendAllSteps(t: Tables, account: string, generation: int, retry: RetryPolicy, turns: seq<Turn>, first: Report,
                     rest: Report)
    requires turns != [] && first == SendOnce(t, account, generation, retry, turns[0])
    requires rest == SendAll(first.tables, account, generation, retry, turns[1..])
    ensures SendAll(t, account, generation, retry, turns)
         == if first.acted.ActedOn? && first.halted.None? then After(first.calls, rest) else first
  {
  }

  class AccountRunner {
    const store: RuntimeStore
    const accountId: string
    const generation: int
    const retry: RetryPolicy
    var halted: Option<Halt>

    constructor (store: RuntimeStore, accountId: string, generation: int, retry: RetryPolicy)
      ensures this.store == store && this.accountId == accountId && this.generation == generation && this.retry == retry
      ensures halted.None?
    {
      this.store, this.accountId, this.generation, this.retry, halted := store, accountId, generation, retry, None;
    }

    /** _record together with the halt it may set. */
    method RecordOutcome(job: JobId, attemptNo: nat, result: DeliveryResult, turn: Turn)
      modifies this, store
      ensures store.Contents() == RecordResult(old(store.Contents()), job, attemptNo,
                RecordFor(result, attemptNo, retry, turn.recordNow, turn.recordDraw), turn.recordStamp).0
      ensures halted == if Halts(result) then HaltFor(result) else old(halted)
    {
      if result.status == Failed && result.errorClass.Some?
        && result.errorClass.value in {AuthDead, StorageDown, CacheDown} {
        halted := Some(WorkerError(result.errorClass.value));
      }
      var record := RecordFor(result, attemptNo, retry, turn.recordNow, turn.recordDraw);
      var recorded := store.FinishAttempt(job, attemptNo, record, turn.recordStamp);
    }

    /** Gate, send and record one claimed job. */
    method SendHeld(job: JobId, attemptNo: nat, turn: Turn) returns (acted: Acted, calls: seq<Call>)
      requires job < |store.jobs|
      modifies this, store
      ensures var r := SendClaimed(old(store.Contents()), job, attemptNo, retry, turn);
              && store.Contents() == r.tables && acted == r.acted && calls == r.calls
              && halted == if r.halted.Some? then r.halted else old(halted)
    {
      calls := [];
      var kind := KindOf(store.jobs[job].kindText);
      if kind.None? {
        return RaisedError, [];
      }
      var moved: bool;
      match turn.decision {
        case BlockedLease =>
          halted := Some(LeaseLost);
          moved := store.MoveJob(job, Leased, Ready, None, turn.gateStamp);
        case BlockedRate =>
          var next := NextAttemptAt(retry, attemptNo, turn.retryNow, turn.draw);
          moved := store.MoveJob(job, Leased, Ready, next, turn.gateStamp);
        case Allow =>
          moved := store.MoveJob(job, Leased, Sending, None, turn.gateStamp);
          var (result, called) := Execute(kind.value, turn.sendDecision, turn.targets, turn.outcome);
          RecordOutcome(job, attemptNo, result, turn);
          calls := if called then [Call(job, attemptNo)] else [];
        case _ =>
          moved := store.MoveJob(job, Leased, Blocked, None, turn.gateStamp);
      }
      acted := ActedOn(job);
    }

    /** send_next with nobody in between. */
    method SendNext(turn: Turn) returns (acted: Acted, calls: seq<Call>)
      requires Sane(store.Contents())
      modifies this, store
      ensures Sane(store.Contents())
      ensures var r := SendOnce(old(store.Contents()), accountId, generation, retry, turn);
              && store.Contents() == r.tables && acted == r.acted && calls == r.calls
              && halted == if r.halted.Some? then r.halted else old(halted)
    {
      var outcome := store.ClaimNext(accountId, generation, turn.reclaimNow, turn.reclaimStamp, turn.claimNow);
      if !outcome.Won? {
        return NothingDue, [];
      }
      ClaimFits(old(store.Contents()), accountId, generation, turn);
      SendClaimedKeeps(store.Contents(), outcome.job, outcome.attemptNo, retry, turn);
      acted, calls := SendHeld(outcome.job, outcome.attemptNo, turn);
    }

    /** The sending loop of run_once. */
    method SendWhileDue(turns: seq<Turn>) returns (acted: Acted, calls: seq<Call>)
      requires Sane(store.Contents()) && halted.None?
      modifies this, store
      ensures Sane(store.Contents())
      ensures Report(store.Contents(), acted, halted, calls)
           == SendAll(old(store.Contents()), accountId, generation, retry, turns)
    {
      acted, calls := OutOfTurns, [];
      ghost var whole := SendAll(store.Contents(), accountId, generation, retry, turns);
      assert turns[0..] == turns;
      var n := 0;
      while n < |turns| && halted.None?
        invariant n <= |turns| && Sane(store.Contents())
        invariant halted.Some? ==> whole == Report(store.Contents(), acted, halted, calls)
        invariant halted.None? ==>
                    whole == After(calls, SendAll(store.Contents(), accountId, generation, retry, turns[n..]))
        decreases |turns| - n
      {
        ghost var first := SendOnce(store.Contents(), accountId, generation, retry, turns[n]);
        ghost var rest := SendAll(first.tables, accountId, generation, retry, turns[n + 1..]);
        assert turns[n..][0] == turns[n] && turns[n..][1..] == turns[n + 1..];
        SendAllSteps(store.Contents(), accountId, generation, retry, turns[n..], first, rest);
        AfterBoth(calls, first.calls, rest);
        var made;
        acted, made := SendNext(turns[n]);
        calls := calls + made;
        n := n + 1;
        if !acted.ActedOn? {
          return;
        }
      }
      if halted.None? {
        acted := OutOfTurns;
        assert calls + [] == calls;
      }
    }

    /** drain_inbox: the earliest unprocessed rows, drained in one transaction. */
    method DrainInbox(limit: nat, c: PlanContext, tenant: string, project: string, now: Time) returns (drained: nat)
      requires Sane(store.Contents())
      modifies store
      ensures Sane(store.Contents())
      ensures var batch := NextBatch(old(store.rows), limit);
              && IsNextBatch(old(store.rows), batch, limit) && drained == |batch|
              && store.Contents() == DrainRows(old(store.Contents()), batch, c, tenant, project, now)
    {
      var batch := store.NextUnprocessed(limit);
      if batch == [] {
        return 0;
      }
      DrainIsSane(store.Contents(), batch, c, tenant, project, now);
      store.DrainToJobs(batch, c, tenant, project, now);
      return |batch|;
    }

    /** run_once: a halted runner does nothing at all; otherwise it drains the inbox, then sends while jobs are due. */
    method RunOnce(limit: nat, c: PlanContext, tenant: string, project: string, now: Time, turns: seq<Turn>)
      returns (acted: Acted, calls: seq<Call>)
      requires Sane(store.Contents())
      modifies this, store
      ensures Sane(store.Contents())
      ensures old(halted).Some? ==>
                store.Contents() == old(store.Contents()) && halted == old(halted) && acted == NothingDue && calls == []
      ensures old(halted).None? ==>
                var drained := DrainRows(old(store.Contents()), NextBatch(old(store.rows), limit), c, tenant, project,
                                         now);
                Report(store.Contents(), acted, halted, calls) == SendAll(drained, accountId, generation, retry, turns)
    {
      if halted.Some? {
        return NothingDue, [];
      }
      var drained := DrainInbox(limit, c, tenant, project, now);
      acted, calls := SendWhileDue(turns);
    }
  }

  // ---------- an uninterrupted call is a run of the protocol ----------

  lemma {:induction false} RunAppend(cfg: Config, s: System, xs: seq<Step>, ys: seq<Step>)
    ensures Run(cfg, s, xs + ys) == Run(cfg, Run(cfg, s, xs), ys)
  {
    if ys == [] {
      assert xs + ys == xs;
    } else {
      RunAppend(cfg, s, xs, ys[..|ys| - 1]);
      assert (xs + ys)[..|xs + ys| - 1] == xs + ys[..|ys| - 1];
    }
  }

  lemma RunOne(cfg: Config, s: System, step: Step)
    ensures Run(cfg, s, [step]) == Apply(cfg, s, step)
  {
    assert [step][..0] == [];
  }

  lemma RunTicked(cfg: Config, s: System, time: Time, step: Step)
    requires s.clock <= time
    ensures Run(cfg, s, [Tick(time), step]) == Apply(cfg, s.(clock := time), step)
  {
    RunOne(cfg, s, Tick(time));
    RunOne(cfg, s.(clock := time), step);
    RunAppend(cfg, s, [Tick(time)], [step]);
    assert [Tick(time)] + [step] == [Tick(time), step];
  }

  /** One try per candidate until one is not skipped. */
  function TrySteps(t: Tables, cs: seq<Candidate>, w: WorkerId, generation: int, now: Time): seq<Step>
    requires CandidatesInRange(cs, t.jobs)
  {
    if cs != [] && TryClaim(t, cs[0], generation, now).1 == Skipped
    then [TryNext(w)] + TrySteps(t, cs[1..], w, generation, now)
    else [TryNext(w)]
  }

  /** The worker after its candidate loop. */
  function AfterClaim(s: System, w: WorkerId, cs: seq<Candidate>, generation: int, now: Time): System
    requires w in s.workers && CandidatesInRange(cs, s.tables.jobs)
  {
    var (claimed, outcome) := ClaimFirst(s.tables, cs, generation, now);
    Put(s.(tables := claimed), w, if outcome.Won? then Holding(outcome.job, outcome.attemptNo) else Idle)
  }

  lemma {:induction false} TryingClaims(cfg: Config, s: System, w: WorkerId, account: string, cs: seq<Candidate>,
                                        now: Time)
    requires w in s.workers && s.workers[w].pc == Scanning(account, cs, now) && CandidatesInRange(cs, s.tables.jobs)
    ensures Run(cfg, s, TrySteps(s.tables, cs, w, s.workers[w].generation, now))
         == AfterClaim(s, w, cs, s.workers[w].generation, now)
    decreases |cs|
  {
    var generation := s.workers[w].generation;
    RunOne(cfg, s, TryNext(w));
    if cs != [] && TryClaim(s.tables, cs[0], generation, now).1 == Skipped {
      var next := Put(s, w, Scanning(account, cs[1..], now));
      assert InRange(cs[0], s.tables.jobs);
      assert Apply(cfg, s, TryNext(w)) == next;
      TryingClaims(cfg, next, w, account, cs[1..], now);
      RunAppend(cfg, s, [TryNext(w)], TrySteps(s.tables, cs[1..], w, generation, now));
      assert AfterClaim(next, w, cs[1..], generation, now) == AfterClaim(s, w, cs, generation, now);
    } else if cs != [] {
      assert InRange(cs[0], s.tables.jobs);
    }
  }

  // ---------- the steps of one call ----------

  function SweepSteps(w: WorkerId, account: string, turn: Turn): seq<Step> {
    [Tick(turn.reclaimStamp), Sweep(w, account, turn.reclaimNow, turn.reclaimStamp)]
    + [Tick(turn.claimNow), ReadCandidates(w, turn.claimNow)]
  }

  function SendSteps(w: WorkerId, turn: Turn): seq<Step> {
    [Step.Send(w, turn.sendDecision, turn.targets, turn.outcome)]
    + [Tick(turn.recordStamp), Record(w, turn.recordNow, turn.recordDraw, turn.recordStamp)]
  }

  function FinishSteps(kind: Option<PlanKind>, w: WorkerId, turn: Turn): seq<Step> {
    [Tick(turn.gateStamp), Gate(w, turn.decision, turn.retryNow, turn.draw, turn.gateStamp)]
    + if kind.Some? && turn.decision == Allow then SendSteps(w, turn) else []
  }

  /** The readings of a turn are in order and not older than the clock. */
  predicate InOrder(clock: Time, turn: Turn) {
    clock <= turn.reclaimNow <= turn.reclaimStamp <= turn.claimNow <= turn.gateStamp <= turn.recordStamp
  }

  function Swept(t: Tables, account: string, turn: Turn): Tables {
    ReclaimStale(t, account, turn.reclaimNow, turn.reclaimStamp)
  }

  function Read(t: Tables, account: string, turn: Turn): (cs: seq<Candidate>)
    ensures CandidatesInRange(cs, Swept(t, account, turn).jobs)
  {
    var swept := Swept(t, account, turn);
    Candidates(swept.jobs, account, |swept.jobs|)
  }

  lemma SweepingReads(cfg: Config, s: System, w: WorkerId, account: string, turn: Turn)
    requires w in s.workers && s.workers[w].pc == Idle && s.workers[w].seen <= s.clock && InOrder(s.clock, turn)
    ensures var after := Run(cfg, s, SweepSteps(w, account, turn));
            && after.tables == Swept(s.tables, account, turn) && after.calls == s.calls && after.clock == turn.claimNow
            && after.workers == s.workers[w := Worker(s.workers[w].generation,
                                                      Scanning(account, Read(s.tables, account, turn), turn.claimNow),
                                                        turn.claimNow)]
  {
    var sweep := Sweep(w, account, turn.reclaimNow, turn.reclaimStamp);
    RunTicked(cfg, s, turn.reclaimStamp, sweep);
    var mid := Run(cfg, s, [Tick(turn.reclaimStamp), sweep]);
    assert mid.workers[w] == Worker(s.workers[w].generation, Pc.Swept(account), turn.reclaimStamp);
    RunTicked(cfg, mid, turn.claimNow, ReadCandidates(w, turn.claimNow));
    RunAppend(cfg, s, [Tick(turn.reclaimStamp), sweep], [Tick(turn.claimNow), ReadCandidates(w, turn.claimNow)]);
  }

  /** The outcome of a call, as the rest of the system sees it. */
  ghost predicate Leaves(s: System, after: System, w: WorkerId, tables: Tables, calls: seq<Call>) {
    && w in s.workers && after.tables == tables && after.calls == s.calls + calls && s.clock <= after.clock
    && after.workers == s.workers[w := Worker(s.workers[w].generation, Idle, after.clock)]
  }

  lemma GateOnly(cfg: Config, s: System, w: WorkerId, job: JobId, attemptNo: nat, turn: Turn)
    requires w in s.workers && s.workers[w].pc == Holding(job, attemptNo)
             && s.workers[w].seen <= s.clock <= turn.gateStamp
    requires job < |s.tables.jobs| && (KindOf(s.tables.jobs[job].kindText).None? || turn.decision != Allow)
    ensures var r := SendClaimed(s.tables, job, attemptNo, cfg.retry, turn);
            Leaves(s, Run(cfg, s, FinishSteps(KindOf(s.tables.jobs[job].kindText), w, turn)), w, r.tables, r.calls)
  {
    var gate := Gate(w, turn.decision, turn.retryNow, turn.draw, turn.gateStamp);
    RunTicked(cfg, s, turn.gateStamp, gate);
    assert [Tick(turn.gateStamp), gate] + [] == [Tick(turn.gateStamp), gate];
    assert s.calls + [] == s.calls;
  }

  lemma GateAllows(cfg: Config, s: System, w: WorkerId, job: JobId, attemptNo: nat, turn: Turn)
    requires w in s.workers && s.workers[w].pc == Holding(job, attemptNo)
             && s.workers[w].seen <= s.clock <= turn.gateStamp
    requires job < |s.tables.jobs| && KindOf(s.tables.jobs[job].kindText).Some? && turn.decision == Allow
    ensures var after := Run(cfg, s, [Tick(turn.gateStamp), Gate(w, Allow, turn.retryNow, turn.draw, turn.gateStamp)]);
            && after.tables == Transition(s.tables, job, Leased, Sending, None, turn.gateStamp).0
            && after.calls == s.calls && after.clock == turn.gateStamp
            && after.workers == s.workers[w := Worker(s.workers[w].generation, Cleared(job, attemptNo), turn.gateStamp)]
  {
    RunTicked(cfg, s, turn.gateStamp, Gate(w, Allow, turn.retryNow, turn.draw, turn.gateStamp));
  }

  lemma SendExecutes(cfg: Config, s: System, w: WorkerId, job: JobId, attemptNo: nat, kind: PlanKind, turn: Turn)
    requires w in s.workers && s.workers[w].pc == Cleared(job, attemptNo)
    requires job < |s.tables.jobs| && KindOf(s.tables.jobs[job].kindText) == Some(kind)
    ensures var (result, called) := Execute(kind, turn.sendDecision, turn.targets, turn.outcome);
            Run(cfg, s, [Step.Send(w, turn.sendDecision, turn.targets, turn.outcome)])
            == Put(s.(calls := s.calls + if called then [Call(job, attemptNo)] else []), w,
                   Executed(job, attemptNo, result))
  {
    RunOne(cfg, s, Step.Send(w, turn.sendDecision, turn.targets, turn.outcome));
    assert s.calls + [] == s.calls;
  }

  lemma RecordLeaves(cfg: Config, s: System, w: WorkerId, job: JobId, attemptNo: nat, result: DeliveryResult,
                     turn: Turn)
    requires w in s.workers && s.workers[w].pc == Executed(job, attemptNo, result)
             && s.workers[w].seen <= s.clock <= turn.recordStamp
    ensures var record := RecordFor(result, attemptNo, cfg.retry, turn.recordNow, turn.recordDraw);
            Leaves(s, Run(cfg, s,
                          [Tick(turn.recordStamp), Record(w, turn.recordNow, turn.recordDraw, turn.recordStamp)]), w,
                   RecordResult(s.tables, job, attemptNo, record, turn.recordStamp).0, [])
  {
    RunTicked(cfg, s, turn.recordStamp, Record(w, turn.recordNow, turn.recordDraw, turn.recordStamp));
    assert s.calls + [] == s.calls;
  }

  lemma SendAndRecord(cfg: Config, s: System, w: WorkerId, job: JobId, attemptNo: nat, kind: PlanKind, turn: Turn)
    requires w in s.workers && s.workers[w].pc == Cleared(job, attemptNo)
             && s.workers[w].seen <= s.clock <= turn.recordStamp
    requires job < |s.tables.jobs| && KindOf(s.tables.jobs[job].kindText) == Some(kind)
    ensures var (result, called) := Execute(kind, turn.sendDecision, turn.targets, turn.outcome);
            var record := RecordFor(result, attemptNo, cfg.retry, turn.recordNow, turn.recordDraw);
            Leaves(s, Run(cfg, s, SendSteps(w, turn)), w,
                   RecordResult(s.tables, job, attemptNo, record, turn.recordStamp).0,
                   if called then [Call(job, attemptNo)] else [])
  {
    var send := Step.Send(w, turn.sendDecision, turn.targets, turn.outcome);
    var record := Record(w, turn.recordNow, turn.recordDraw, turn.recordStamp);
    SendExecutes(cfg, s, w, job, attemptNo, kind, turn);
    var mid := Run(cfg, s, [send]);
    RecordLeaves(cfg, mid, w, job, attemptNo, mid.workers[w].pc.result, turn);
    RunAppend(cfg, s, [send], [Tick(turn.recordStamp), record]);
    assert mid.calls + [] == mid.calls;
  }

  lemma HeldIsSent(cfg: Config, s: System, w: WorkerId, job: JobId, attemptNo: nat, kind: PlanKind, turn: Turn)
    requires w in s.workers && s.workers[w].pc == Holding(job, attemptNo)
    requires s.workers[w].seen <= s.clock <= turn.gateStamp <= turn.recordStamp && job < |s.tables.jobs|
    requires KindOf(s.tables.jobs[job].kindText) == Some(kind) && turn.decision == Allow
    ensures var r := SendClaimed(s.tables, job, attemptNo, cfg.retry, turn);
            Leaves(s, Run(cfg, s, FinishSteps(Some(kind), w, turn)), w, r.tables, r.calls)
  {
    var gate := [Tick(turn.gateStamp), Gate(w, Allow, turn.retryNow, turn.draw, turn.gateStamp)];
    GateAllows(cfg, s, w, job, attemptNo, turn);
    var mid := Run(cfg, s, gate);
    assert mid.tables.jobs[job].kindText == s.tables.jobs[job].kindText;
    SendAndRecord(cfg, mid, w, job, attemptNo, kind, turn);
    RunAppend(cfg, s, gate, SendSteps(w, turn));
  }

  lemma HeldIsFinished(cfg: Config, s: System, w: WorkerId, job: JobId, attemptNo: nat, turn: Turn)
    requires w in s.workers && s.workers[w].pc == Holding(job, attemptNo)
    requires s.workers[w].seen <= s.clock <= turn.gateStamp <= turn.recordStamp && job < |s.tables.jobs|
    ensures var r := SendClaimed(s.tables, job, attemptNo, cfg.retry, turn);
            Leaves(s, Run(cfg, s, FinishSteps(KindOf(s.tables.jobs[job].kindText), w, turn)), w, r.tables, r.calls)
  {
    var kind := KindOf(s.tables.jobs[job].kindText);
    if kind.None? || turn.decision != Allow {
      GateOnly(cfg, s, w, job, attemptNo, turn);
    } else {
      HeldIsSent(cfg, s, w, job, attemptNo, kind.value, turn);
    }
  }

  /** The steps of the candidate loop and of what follows a claim it wins. */
  function ClaimSteps(t: Tables, cs: seq<Candidate>, w: WorkerId, generation: int, turn: Turn): seq<Step>
    requires CandidatesInRange(cs, t.jobs)
  {
    var (claimed, outcome) := ClaimFirst(t, cs, generation, turn.claimNow);
    ClaimKeepsSize(t, cs, generation, turn.claimNow);
    TrySteps(t, cs, w, generation, turn.claimNow)
    + if outcome.Won? then FinishSteps(KindOf(claimed.jobs[outcome.job].kindText), w, turn) else []
  }

  lemma WonIsFinished(cfg: Config, s: System, w: WorkerId, claimed: Tables, job: JobId, attemptNo: nat, turn: Turn)
    requires w in s.workers && s.workers[w].seen <= s.clock <= turn.gateStamp <= turn.recordStamp
             && job < |claimed.jobs|
    ensures var mid := Put(s.(tables := claimed), w, Holding(job, attemptNo));
            var r := SendClaimed(claimed, job, attemptNo, cfg.retry, turn);
            Leaves(s, Run(cfg, mid, FinishSteps(KindOf(claimed.jobs[job].kindText), w, turn)), w, r.tables, r.calls)
  {
    HeldIsFinished(cfg, Put(s.(tables := claimed), w, Holding(job, attemptNo)), w, job, attemptNo, turn);
  }

  lemma NothingIsFinished(s: System, w: WorkerId)
    requires w in s.workers && s.workers[w].seen <= s.clock
    ensures Leaves(s, Put(s, w, Idle), w, s.tables, [])
  {
    assert s.calls + [] == s.calls;
  }

  lemma ClaimedIsFinished(cfg: Config, s: System, w: WorkerId, account: string, cs: seq<Candidate>, turn: Turn)
    requires w in s.workers && s.workers[w].pc == Scanning(account, cs, turn.claimNow) && s.workers[w].seen == s.clock
    requires CandidatesInRange(cs, s.tables.jobs) && s.clock <= turn.gateStamp <= turn.recordStamp
    ensures var r := ClaimAndSend(s.tables, cs, s.workers[w].generation, cfg.retry, turn);
            Leaves(s, Run(cfg, s, ClaimSteps(s.tables, cs, w, s.workers[w].generation, turn)), w, r.tables, r.calls)
  {
    var generation := s.workers[w].generation;
    var (claimed, outcome) := ClaimFirst(s.tables, cs, generation, turn.claimNow);
    var tries := TrySteps(s.tables, cs, w, generation, turn.claimNow);
    ClaimKeepsSize(s.tables, cs, generation, turn.claimNow);
    TryingClaims(cfg, s, w, account, cs, turn.claimNow);
    if outcome.Won? {
      WonIsFinished(cfg, s, w, claimed, outcome.job, outcome.attemptNo, turn);
      RunAppend(cfg, s, tries, FinishSteps(KindOf(claimed.jobs[outcome.job].kindText), w, turn));
    } else {
      assert tries + [] == tries;
      NothingIsFinished(s, w);
    }
  }

  /** The protocol steps of one call of send_next that nobody interrupts. */
  function CallSteps(t: Tables, w: WorkerId, account: string, generation: int, turn: Turn): seq<Step> {
    SweepSteps(w, account, turn) + ClaimSteps(Swept(t, account, turn), Read(t, account, turn), w, generation, turn)
  }

  /** A call of send_next that nobody interrupts is a run of the protocol: same tables, same transport calls, the
      worker idle again and no other worker touched. What holds of every run therefore holds around it. */
  lemma SendNextIsARun(cfg: Config, s: System, w: WorkerId, account: string, turn: Turn)
    requires w in s.workers && s.workers[w].pc == Idle && s.workers[w].seen <= s.clock && InOrder(s.clock, turn)
    ensures var r := SendOnce(s.tables, account, s.workers[w].generation, cfg.retry, turn);
            Leaves(s, Run(cfg, s, CallSteps(s.tables, w, account, s.workers[w].generation, turn)), w, r.tables, r.calls)
  {
    var t, cs, generation := Swept(s.tables, account, turn), Read(s.tables, account, turn), s.workers[w].generation;
    SweepingReads(cfg, s, w, account, turn);
    var mid := Run(cfg, s, SweepSteps(w, account, turn));
    ClaimedIsFinished(cfg, mid, w, account, cs, turn);
    RunAppend(cfg, s, SweepSteps(w, account, turn), ClaimSteps(t, cs, w, generation, turn));
  }

  /** After any run, an uninterrupted call keeps the transport calls of every job within its attempt count. */
  lemma {:induction false} SendNextWithinAttempts(cfg: Config, steps: seq<Step>, w: WorkerId, account: string,
                                                  turn: Turn, j: JobId)
    requires var s := Run(cfg, INITIAL, steps);
             w in s.workers && s.workers[w].pc == Idle && s.workers[w].seen <= s.clock && InOrder(s.clock, turn)
    requires var s := Run(cfg, INITIAL, steps);
             j < |SendOnce(s.tables, account, s.workers[w].generation, cfg.retry, turn).tables.jobs|
    ensures var s := Run(cfg, INITIAL, steps);
            var r := SendOnce(s.tables, account, s.workers[w].generation, cfg.retry, turn);
            PipelineRuns.CallsFor(s.calls + r.calls, j) <= r.tables.jobs[j].attemptCount
  {
    var s := Run(cfg, INITIAL, steps);
    SendNextIsARun(cfg, s, w, account, turn);
    RunAppend(cfg, INITIAL, steps, CallSteps(s.tables, w, account, s.workers[w].generation, turn));
    PipelineRuns.TransportCallsBounded(cfg, steps + CallSteps(s.tables, w, account, s.workers[w].generation, turn), j);
  }

  // ---------- a whole round ----------

  ghost predicate TicksWithin(steps: seq<Step>, bound: Time) {
    forall i :: 0 <= i < |steps| && steps[i].Tick? ==> steps[i].time <= bound
  }

  lemma {:induction false} ClockWithin(cfg: Config, s: System, steps: seq<Step>, bound: Time)
    requires s.clock <= bound && TicksWithin(steps, bound)
    ensures Run(cfg, s, steps).clock <= bound
  {
    if steps != [] {
      ClockWithin(cfg, s, steps[..|steps| - 1], bound);
    }
  }

  lemma {:induction false} TriesNeverTick(t: Tables, cs: seq<Candidate>, w: WorkerId, generation: int, now: Time,
                                          bound: Time)
    requires CandidatesInRange(cs, t.jobs)
    ensures TicksWithin(TrySteps(t, cs, w, generation, now), bound)
    decreases |cs|
  {
    if cs != [] && TryClaim(t, cs[0], generation, now).1 == Skipped {
      TriesNeverTick(t, cs[1..], w, generation, now, bound);
    }
  }

  lemma CallTicks(t: Tables, w: WorkerId, account: string, generation: int, turn: Turn, clock: Time)
    requires InOrder(clock, turn)
    ensures TicksWithin(CallSteps(t, w, account, generation, turn), turn.recordStamp)
  {
    TriesNeverTick(Swept(t, account, turn), Read(t, account, turn), w, generation, turn.claimNow, turn.recordStamp);
  }

  /** Each turn starts when the one before is over. */
  predicate Chained(clock: Time, turns: seq<Turn>)
    decreases |turns|
  {
    turns == [] || (InOrder(clock, turns[0]) && Chained(turns[0].recordStamp, turns[1..]))
  }

  /** The protocol steps of the sending loop. */
  function TurnSteps(t: Tables, w: WorkerId, account: string, generation: int, retry: RetryPolicy,
                     turns: seq<Turn>): seq<Step>
    decreases |turns|
  {
    if turns == [] then []
    else
      var first := SendOnce(t, account, generation, retry, turns[0]);
      CallSteps(t, w, account, generation, turns[0])
      + if !first.acted.ActedOn? || first.halted.Some? then []
        else TurnSteps(first.tables, w, account, generation, retry, turns[1..])
  }

  lemma LeavesTwice(s: System, mid: System, after: System, w: WorkerId, t: Tables, first: seq<Call>, u: Tables,
                    second: seq<Call>)
    requires Leaves(s, mid, w, t, first) && Leaves(mid, after, w, u, second)
    ensures Leaves(s, after, w, u, first + second)
  {
    assert s.calls + first + second == s.calls + (first + second);
  }

  lemma ChainedEarlier(clock: Time, later: Time, turns: seq<Turn>)
    requires clock <= later && Chained(later, turns)
    ensures Chained(clock, turns)
  {}

  lemma FirstTurn(cfg: Config, s: System, w: WorkerId, account: string, turns: seq<Turn>)
    requires w in s.workers && s.workers[w].pc == Idle && s.workers[w].seen <= s.clock && turns != []
             && Chained(s.clock, turns)
    ensures var generation := s.workers[w].generation;
            var r := SendOnce(s.tables, account, generation, cfg.retry, turns[0]);
            var mid := Run(cfg, s, CallSteps(s.tables, w, account, generation, turns[0]));
            Leaves(s, mid, w, r.tables, r.calls) && Chained(mid.clock, turns[1..])
  {
    var steps := CallSteps(s.tables, w, account, s.workers[w].generation, turns[0]);
    SendNextIsARun(cfg, s, w, account, turns[0]);
    CallTicks(s.tables, w, account, s.workers[w].generation, turns[0], s.clock);
    ClockWithin(cfg, s, steps, turns[0].recordStamp);
    ChainedEarlier(Run(cfg, s, steps).clock, turns[0].recordStamp, turns[1..]);
  }

  lemma {:induction false} SendAllIsARun(cfg: Config, s: System, w: WorkerId, account: string, turns: seq<Turn>)
    requires w in s.workers && s.workers[w].pc == Idle && s.workers[w].seen == s.clock && Chained(s.clock, turns)
    ensures var generation := s.workers[w].generation;
            var r := SendAll(s.tables, account, generation, cfg.retry, turns);
            Leaves(s, Run(cfg, s, TurnSteps(s.tables, w, account, generation, cfg.retry, turns)), w, r.tables, r.calls)
    decreases |turns|
  {
    var generation := s.workers[w].generation;
    if turns == [] {
      assert s.calls + [] == s.calls;
      assert s.workers == s.workers[w := s.workers[w]];
    } else {
      var first := SendOnce(s.tables, account, generation, cfg.retry, turns[0]);
      var steps := CallSteps(s.tables, w, account, generation, turns[0]);
      var mid := Run(cfg, s, steps);
      FirstTurn(cfg, s, w, account, turns);
      if !first.acted.ActedOn? || first.halted.Some? {
        assert steps + [] == steps;
      } else {
        SendAllIsARun(cfg, mid, w, account, turns[1..]);
        var rest := SendAll(first.tables, account, generation, cfg.retry, turns[1..]);
        var more := TurnSteps(first.tables, w, account, generation, cfg.retry, turns[1..]);
        RunAppend(cfg, s, steps, more);
        LeavesTwice(s, mid, Run(cfg, mid, more), w, first.tables, first.calls, rest.tables, rest.calls);
      }
    }
  }

  /** The protocol steps of the drain that opens a round. */
  function DrainSteps(w: WorkerId, batch: seq<nat>, view: MappingView, pick: Picker, tenant: string, project: string,
                      now: Time): seq<Step> {
    [ReadInbox(w, batch)] + [Tick(now), Drain(w, view, pick, tenant, project, now)]
  }

  lemma ReadingInbox(cfg: Config, s: System, w: WorkerId, batch: seq<nat>)
    requires w in s.workers && s.workers[w].pc == Idle && BatchInRange(batch, s.tables.inbox.rows)
    requires forall i :: 0 <= i < |batch| ==> !s.tables.inbox.rows[batch[i]].processed
    ensures Run(cfg, s, [ReadInbox(w, batch)]) == Put(s, w, Drafting(batch))
  {
    RunOne(cfg, s, ReadInbox(w, batch));
  }

  lemma DrainingBatch(cfg: Config, s: System, w: WorkerId, batch: seq<nat>, view: MappingView, pick: Picker,
                      tenant: string,
                      project: string, now: Time)
    requires w in s.workers && s.workers[w].pc == Drafting(batch) && BatchInRange(batch, s.tables.inbox.rows)
    requires s.workers[w].seen <= s.clock <= now
    ensures var after := Run(cfg, s, [Tick(now), Drain(w, view, pick, tenant, project, now)]);
            && after.clock == now
            && Leaves(s, after, w,
                      DrainRows(s.tables, batch, PlanContext(cfg.rules, view, pick), tenant, project, now), [])
  {
    RunTicked(cfg, s, now, Drain(w, view, pick, tenant, project, now));
    assert s.calls + [] == s.calls;
  }

  lemma LeavesFromPut(s: System, pc: Pc, after: System, w: WorkerId, t: Tables, calls: seq<Call>)
    requires w in s.workers && Leaves(Put(s, w, pc), after, w, t, calls)
    ensures Leaves(s, after, w, t, calls)
  {}

  lemma DrainIsARun(cfg: Config, s: System, w: WorkerId, limit: nat, view: MappingView, pick: Picker, tenant: string,
                    project: string,
                    now: Time)
    requires w in s.workers && s.workers[w].pc == Idle && s.workers[w].seen <= s.clock <= now
    ensures var batch := NextBatch(s.tables.inbox.rows, limit);
            var after := Run(cfg, s, DrainSteps(w, batch, view, pick, tenant, project, now));
            after.clock == now
            && Leaves(s, after, w,
                      DrainRows(s.tables, batch, PlanContext(cfg.rules, view, pick), tenant, project, now), [])
  {
    var batch := NextBatch(s.tables.inbox.rows, limit);
    var drain := [Tick(now), Drain(w, view, pick, tenant, project, now)];
    NextBatchIsNext(s.tables.inbox.rows, limit);
    ReadingInbox(cfg, s, w, batch);
    var mid := Put(s, w, Drafting(batch));
    DrainingBatch(cfg, mid, w, batch, view, pick, tenant, project, now);
    RunAppend(cfg, s, [ReadInbox(w, batch)], drain);
    LeavesFromPut(s, Drafting(batch), Run(cfg, mid, drain), w,
                  DrainRows(s.tables, batch, PlanContext(cfg.rules, view, pick), tenant, project, now), []);
  }

  /** A round of run_once that nobody interrupts - read the inbox, drain, send while jobs are due - is a run of the
      protocol: same tables, same transport calls, the worker idle again and no other worker touched. */
  lemma {:induction false} RoundIsARun(cfg: Config, s: System, w: WorkerId, account: string, limit: nat,
                                       view: MappingView,
                                       pick: Picker, tenant: string, project: string, now: Time, turns: seq<Turn>)
    requires w in s.workers && s.workers[w].pc == Idle && s.workers[w].seen <= s.clock <= now && Chained(now, turns)
    ensures var generation := s.workers[w].generation;
            var batch := NextBatch(s.tables.inbox.rows, limit);
            var drained := DrainRows(s.tables, batch, PlanContext(cfg.rules, view, pick), tenant, project, now);
            var steps := DrainSteps(w, batch, view, pick, tenant, project, now)
                         + TurnSteps(drained, w, account, generation, cfg.retry, turns);
            var r := SendAll(drained, account, generation, cfg.retry, turns);
            Leaves(s, Run(cfg, s, steps), w, r.tables, r.calls)
  {
    var generation := s.workers[w].generation;
    var batch := NextBatch(s.tables.inbox.rows, limit);
    var first := DrainSteps(w, batch, view, pick, tenant, project, now);
    DrainIsARun(cfg, s, w, limit, view, pick, tenant, project, now);
    var mid := Run(cfg, s, first);
    var more := TurnSteps(mid.tables, w, account, generation, cfg.retry, turns);
    SendAllIsARun(cfg, mid, w, account, turns);
    RunAppend(cfg, s, first, more);
    var r := SendAll(mid.tables, account, generation, cfg.retry, turns);
    LeavesTwice(s, mid, Run(cfg, mid, more), w, mid.tables, [], r.tables, r.calls);
    assert [] + r.calls == r.calls;
  }
}
