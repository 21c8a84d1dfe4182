/** No success without a send: over whole runs, a message is reported sent only after a transport call for it. */
module PipelineSends {
  import opened Text
  import opened Planner
  import opened Ingest
  import opened JobModel
  import opened Store
  import opened Pipeline
  import opened PipelineSafety
  import opened PipelineRuns

  predicate IsSend(job: Job) {
    KindOf(job.kindText) == Some(PlanKind.Send)
  }

  predicate CalledFor(calls: seq<Call>, j: JobId) {
    exists i :: 0 <= i < |calls| && calls[i].job == j
  }

  /** A worker that is about to record a success for a message has made the call. */
  ghost predicate ResultOk(pc: Pc, jobs: seq<Job>, calls: seq<Call>) {
    pc.Executed? && pc.result.status == Done && pc.job < |jobs| && IsSend(jobs[pc.job]) ==> CalledFor(calls, pc.job)
  }

  ghost predicate SuccessOk(jobs: seq<Job>, calls: seq<Call>) {
    forall j: JobId :: j < |jobs| && jobs[j].status == Succeeded && IsSend(jobs[j]) ==> CalledFor(calls, j)
  }

  ghost predicate SentInv(s: System) {
    && SuccessOk(s.tables.jobs, s.calls)
    && forall w :: w in s.workers ==> ResultOk(s.workers[w].pc, s.tables.jobs, s.calls)
  }

  /** Rows keep their kind, and none turns to succeeded. */
  ghost predicate NoNewSuccess(before: seq<Job>, after: seq<Job>) {
    && |before| <= |after|
    && (forall j :: 0 <= j < |before| ==>
          after[j].kindText == before[j].kindText && (after[j].status == Succeeded ==> before[j].status == Succeeded))
    && (forall j :: |before| <= j < |after| ==> after[j].status != Succeeded)
  }

  lemma CallsOnlyGrow(calls: seq<Call>, more: seq<Call>, j: JobId)
    requires CalledFor(calls, j)
    ensures CalledFor(calls + more, j)
  {
    var i :| 0 <= i < |calls| && calls[i].job == j;
    assert (calls + more)[i].job == j;
  }

  /** A worker moves on without an unproved result, and no row turns to succeeded. */
  lemma QuietStep(s: System, t: System)
    requires SentInv(s) && NoNewSuccess(s.tables.jobs, t.tables.jobs) && s.calls <= t.calls
    requires forall w :: w in t.workers && t.workers[w].pc.Executed? ==>
               w in s.workers && t.workers[w].pc == s.workers[w].pc
    requires forall w :: w in s.workers && s.workers[w].pc.Executed? ==> s.workers[w].pc.job < |s.tables.jobs|
    ensures SentInv(t)
  {
    assert t.calls == s.calls + t.calls[|s.calls|..];
    forall j: JobId | CalledFor(s.calls, j)
      ensures CalledFor(t.calls, j)
    {
      CallsOnlyGrow(s.calls, t.calls[|s.calls|..], j);
    }
    forall w | w in t.workers
      ensures ResultOk(t.workers[w].pc, t.tables.jobs, t.calls)
    {
      if t.workers[w].pc.Executed? {
        assert ResultOk(s.workers[w].pc, s.tables.jobs, s.calls);
      }
    }
  }

  lemma ExecutedInRange(cfg: Config, s: System)
    requires Inv(cfg, s)
    ensures forall w :: w in s.workers && s.workers[w].pc.Executed? ==> s.workers[w].pc.job < |s.tables.jobs|
  {
    forall w | w in s.workers && s.workers[w].pc.Executed?
      ensures s.workers[w].pc.job < |s.tables.jobs|
    {
      assert PcOk(s.workers[w].pc, s.tables);
    }
  }

  lemma {:induction false} InsertedPlansNew(jobs: seq<Job>, plans: seq<DeliveryPlan>, tenant: string, project: string,
                                            now: Time)
    ensures NoNewSuccess(jobs, InsertPlans(jobs, plans, tenant, project, now))
  {
    if plans != [] {
      InsertedPlansNew(jobs, plans[..|plans| - 1], tenant, project, now);
    }
  }

  lemma {:induction false} DrainedNew(t: Tables, batch: seq<nat>, c: PlanContext, tenant: string, project: string,
                                      now: Time)
    requires BatchInRange(batch, t.inbox.rows)
    ensures NoNewSuccess(t.jobs, DrainRows(t, batch, c, tenant, project, now).jobs)
  {
    if batch != [] {
      var front := batch[..|batch| - 1];
      DrainedNew(t, front, c, tenant, project, now);
      var before := DrainRows(t, front, c, tenant, project, now);
      InsertedPlansNew(before.jobs, PlansFor(before.inbox.rows[batch[|batch| - 1]].event, c), tenant, project, now);
    }
  }

  lemma DrainSends(cfg: Config, s: System, w: WorkerId, view: MappingView, pick: Picker, tenant: string,
                   project: string, now: Time)
    requires Inv(cfg, s) && SentInv(s)
    ensures SentInv(DoDrain(cfg, s, w, view, pick, tenant, project, now))
  {
    var t := DoDrain(cfg, s, w, view, pick, tenant, project, now);
    if t != s {
      DrainedNew(s.tables, s.workers[w].pc.batch, PlanContext(cfg.rules, view, pick), tenant, project, now);
      ExecutedInRange(cfg, s);
      QuietStep(s, t);
    }
  }

  lemma SweepSends(cfg: Config, s: System, w: WorkerId, account: string, now: Time, stamp: Time)
    requires Inv(cfg, s) && SentInv(s)
    ensures SentInv(DoSweep(s, w, account, now, stamp))
  {
    ExecutedInRange(cfg, s);
    QuietStep(s, DoSweep(s, w, account, now, stamp));
  }

  lemma TransitionNew(t: Tables, job: JobId, src: JobStatus, dst: JobStatus, next: Option<Time>, stamp: Time)
    requires dst != Succeeded
    ensures NoNewSuccess(t.jobs, Transition(t, job, src, dst, next, stamp).0.jobs)
  {}

  lemma TryNew(t: Tables, c: Candidate, generation: int, now: Time)
    requires InRange(c, t.jobs)
    ensures NoNewSuccess(t.jobs, TryClaim(t, c, generation, now).0.jobs)
  {}

  lemma TryWorkers(s: System, w: WorkerId)
    ensures DoTryNext(s, w).calls == s.calls && DoTryNext(s, w).workers.Keys == s.workers.Keys
    ensures forall v :: v in s.workers && DoTryNext(s, w).workers[v].pc.Executed? ==>
              DoTryNext(s, w).workers[v].pc == s.workers[v].pc
  {}

  lemma TrySends(cfg: Config, s: System, w: WorkerId)
    requires Inv(cfg, s) && SentInv(s)
    ensures SentInv(DoTryNext(s, w))
  {
    ExecutedInRange(cfg, s);
    if w in s.workers && s.workers[w].pc.Scanning? {
      var pc := s.workers[w].pc;
      if pc.candidates != [] && InRange(pc.candidates[0], s.tables.jobs) {
        TryNew(s.tables, pc.candidates[0], s.workers[w].generation, pc.now);
      }
      TryWorkers(s, w);
      QuietStep(s, DoTryNext(s, w));
    }
  }

  lemma GateMoves(cfg: Config, s: System, w: WorkerId, decision: Decision, now: Time, draw: real, stamp: Time)
    ensures NoNewSuccess(s.tables.jobs, DoGate(cfg, s, w, decision, now, draw, stamp).tables.jobs)
  {
    if Readable(s, w, stamp) && s.workers[w].pc.Holding? {
      var Holding(job, attemptNo) := s.workers[w].pc;
      match decision
      case BlockedLease => TransitionNew(s.tables, job, Leased, Ready, None, stamp);
      case BlockedRate =>
        TransitionNew(s.tables, job, Leased, Ready, NextAttemptAt(cfg.retry, attemptNo, now, draw), stamp);
      case Allow => TransitionNew(s.tables, job, Leased, Sending, None, stamp);
      case _ => TransitionNew(s.tables, job, Leased, Blocked, None, stamp);
    }
  }

  lemma GateWorkers(cfg: Config, s: System, w: WorkerId, decision: Decision, now: Time, draw: real, stamp: Time)
    ensures var t := DoGate(cfg, s, w, decision, now, draw, stamp);
            && t.calls == s.calls && t.workers.Keys == s.workers.Keys
            && forall v :: v in s.workers && t.workers[v].pc.Executed? ==> t.workers[v].pc == s.workers[v].pc
  {}

  lemma GateSends(cfg: Config, s: System, w: WorkerId, decision: Decision, now: Time, draw: real, stamp: Time)
    requires Inv(cfg, s) && SentInv(s)
    ensures SentInv(DoGate(cfg, s, w, decision, now, draw, stamp))
  {
    ExecutedInRange(cfg, s);
    GateMoves(cfg, s, w, decision, now, draw, stamp);
    GateWorkers(cfg, s, w, decision, now, draw, stamp);
    QuietStep(s, DoGate(cfg, s, w, decision, now, draw, stamp));
  }

  lemma SendSends(s: System, w: WorkerId, decision: Decision, targets: seq<int>, outcome: TransportOutcome)
    requires SentInv(s)
    ensures SentInv(DoSend(s, w, decision, targets, outcome))
  {
    var t := DoSend(s, w, decision, targets, outcome);
    if t != s {
      var Cleared(job, attemptNo) := s.workers[w].pc;
      var more := t.calls[|s.calls|..];
      assert t.calls == s.calls + more;
      forall j: JobId | CalledFor(s.calls, j)
        ensures CalledFor(t.calls, j)
      {
        CallsOnlyGrow(s.calls, more, j);
      }
      SuccessWithoutCall(KindOf(s.tables.jobs[job].kindText).value, decision, targets, outcome);
      assert more != [] ==> t.calls[|s.calls|].job == job;
    }
  }

  lemma RecordSends(cfg: Config, s: System, w: WorkerId, now: Time, draw: real, stamp: Time)
    requires SentInv(s)
    ensures SentInv(DoRecord(cfg, s, w, now, draw, stamp))
  {
    if Readable(s, w, stamp) && s.workers[w].pc.Executed? {
      assert ResultOk(s.workers[w].pc, s.tables.jobs, s.calls);
    }
  }

  lemma CancelSends(cfg: Config, s: System, job: JobId, src: JobStatus, stamp: Time)
    requires Inv(cfg, s) && SentInv(s)
    ensures SentInv(Apply(cfg, s, Cancel(job, src, stamp)))
  {
    ExecutedInRange(cfg, s);
    TransitionNew(s.tables, job, src, Cancelled, None, stamp);
    QuietStep(s, Apply(cfg, s, Cancel(job, src, stamp)));
  }

  lemma InsertSends(cfg: Config, s: System, row: Job)
    requires Inv(cfg, s) && SentInv(s)
    ensures SentInv(Apply(cfg, s, PlatformInsert(row)))
  {
    ExecutedInRange(cfg, s);
    QuietStep(s, Apply(cfg, s, PlatformInsert(row)));
  }

  /** Steps that touch no job row and leave no worker with a result. */
  lemma OtherSends(cfg: Config, s: System, step: Step)
    requires Inv(cfg, s) && SentInv(s)
    requires step.Tick? || step.Start? || step.Arrive? || step.ReadInbox? || step.ReadCandidates?
    ensures SentInv(Apply(cfg, s, step))
  {
    ExecutedInRange(cfg, s);
    QuietStep(s, Apply(cfg, s, step));
  }

  lemma StepSends(cfg: Config, s: System, step: Step)
    requires Inv(cfg, s) && SentInv(s)
    ensures SentInv(Apply(cfg, s, step))
  {
    match step
    case Drain(w, view, pick, tenant, project, now) => DrainSends(cfg, s, w, view, pick, tenant, project, now);
    case Sweep(w, account, now, stamp) => SweepSends(cfg, s, w, account, now, stamp);
    case TryNext(w) => TrySends(cfg, s, w);
    case Gate(w, decision, now, draw, stamp) => GateSends(cfg, s, w, decision, now, draw, stamp);
    case Send(w, decision, targets, outcome) => SendSends(s, w, decision, targets, outcome);
    case Record(w, now, draw, stamp) => RecordSends(cfg, s, w, now, draw, stamp);
    case Cancel(job, src, stamp) => CancelSends(cfg, s, job, src, stamp);
    case PlatformInsert(row) => InsertSends(cfg, s, row);
    case _ => OtherSends(cfg, s, step);
  }

  lemma {:induction false} EveryRunSends(cfg: Config, steps: seq<Step>)
    ensures SentInv(Run(cfg, INITIAL, steps))
  {
    if steps != [] {
      EveryRunSends(cfg, steps[..|steps| - 1]);
      EveryRunSafe(cfg, steps[..|steps| - 1]);
      StepSends(cfg, Run(cfg, INITIAL, steps[..|steps| - 1]), steps[|steps| - 1]);
    }
  }

  /** In every run a message job that stands as succeeded has had at least one transport call, and at most
      attempt_count of them. */
  lemma {:induction false} SucceededWasSent(cfg: Config, steps: seq<Step>, j: JobId)
    requires var s := Run(cfg, INITIAL, steps);
             j < |s.tables.jobs| && s.tables.jobs[j].status == Succeeded && IsSend(s.tables.jobs[j])
    ensures var s := Run(cfg, INITIAL, steps);
            1 <= CallsFor(s.calls, j) <= s.tables.jobs[j].attemptCount
  {
    EveryRunSends(cfg, steps);
    TransportCallsBounded(cfg, steps, j);
    CalledCounts(Run(cfg, INITIAL, steps).calls, j);
  }

  lemma {:induction false} CalledCounts(calls: seq<Call>, j: JobId)
    ensures CalledFor(calls, j) <==> CallsFor(calls, j) > 0
  {
    if calls != [] {
      var front, last := calls[..|calls| - 1], calls[|calls| - 1];
      CalledCounts(front, j);
      assert calls == front + [last];
      if CalledFor(front, j) {
        CallsOnlyGrow(front, [last], j);
      }
      if last.job == j {
        assert calls[|calls| - 1].job == j;
      }
    }
  }
}
