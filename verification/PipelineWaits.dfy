/** Two more results over whole runs: a claim is never early, although it is decided on rows that were read before,
    and the message map only grows. */
module PipelineWaits {
  import opened Text
  import opened Planner
  import opened Ingest
  import opened JobModel
  import opened Store
  import opened Pipeline
  import opened PipelineSafety
  import opened PipelineRuns

  predicate SameWaits(c: Candidate, row: Job) {
    c.nextAttemptAt == row.nextAttemptAt && c.floodWaitUntil == row.floodWaitUntil
  }

  /** A row with the attempt count that was read is still as it was read, or cancelled. */
  predicate Current(c: Candidate, row: Job) {
    c.attemptCount == row.attemptCount ==> row.status == Cancelled || (row.status == Ready && SameWaits(c, row))
  }

  ghost predicate AllCurrent(cs: seq<Candidate>, jobs: seq<Job>) {
    forall i :: 0 <= i < |cs| ==> cs[i].job < |jobs| && Current(cs[i], jobs[cs[i].job])
  }

  ghost predicate ReadsCurrent(s: System) {
    forall w :: w in s.workers && s.workers[w].pc.Scanning? ==> AllCurrent(s.workers[w].pc.candidates, s.tables.jobs)
  }

  /** What a step may do to a row without counting a new attempt. */
  predicate RowKeeps(before: Job, after: Job) {
    && before.attemptCount <= after.attemptCount
    && (before.attemptCount == after.attemptCount && before.status == Cancelled ==> after.status == Cancelled)
    && (before.attemptCount == after.attemptCount && before.status == Ready ==>
          || after.status == Cancelled
          || (after.status == Ready && before.nextAttemptAt == after.nextAttemptAt
              && before.floodWaitUntil == after.floodWaitUntil))
  }

  ghost predicate RowsKeep(before: seq<Job>, after: seq<Job>) {
    |before| <= |after| && forall j :: 0 <= j < |before| ==> RowKeeps(before[j], after[j])
  }

  lemma DrainRowsKeep(cfg: Config, s: System, w: WorkerId, view: MappingView, pick: Picker, tenant: string,
                      project: string, now: Time)
    ensures RowsKeep(s.tables.jobs, DoDrain(cfg, s, w, view, pick, tenant, project, now).tables.jobs)
  {
    if DoDrain(cfg, s, w, view, pick, tenant, project, now) != s {
      DrainAppends(s.tables, s.workers[w].pc.batch, PlanContext(cfg.rules, view, pick), tenant, project, now);
    }
  }

  lemma TryRowsKeep(cfg: Config, s: System, w: WorkerId)
    requires Inv(cfg, s)
    ensures RowsKeep(s.tables.jobs, DoTryNext(s, w).tables.jobs)
  {
    if w in s.workers && s.workers[w].pc.Scanning? && s.workers[w].pc.candidates != [] {
      var pc := s.workers[w].pc;
      assert PcOk(pc, s.tables);
      assert CandidateOk(pc.candidates[0], s.tables.jobs);
      TryClaimKeeps(s.tables, pc.candidates[0], s.workers[w].generation, pc.now);
    }
  }

  lemma GateRowsKeep(cfg: Config, s: System, w: WorkerId, decision: Decision, now: Time, draw: real, stamp: Time)
    ensures RowsKeep(s.tables.jobs, DoGate(cfg, s, w, decision, now, draw, stamp).tables.jobs)
  {}

  lemma SweepRowsKeep(s: System, w: WorkerId, account: string, now: Time, stamp: Time)
    ensures RowsKeep(s.tables.jobs, DoSweep(s, w, account, now, stamp).tables.jobs)
  {}

  lemma RecordRowsKeep(cfg: Config, s: System, w: WorkerId, now: Time, draw: real, stamp: Time)
    ensures RowsKeep(s.tables.jobs, DoRecord(cfg, s, w, now, draw, stamp).tables.jobs)
  {}

  lemma OtherRowsKeep(cfg: Config, s: System, step: Step)
    requires !step.Drain? && !step.Sweep? && !step.TryNext? && !step.Gate? && !step.Record?
    ensures RowsKeep(s.tables.jobs, Apply(cfg, s, step).tables.jobs)
  {}

  lemma StepRowsKeep(cfg: Config, s: System, step: Step)
    requires Inv(cfg, s)
    ensures RowsKeep(s.tables.jobs, Apply(cfg, s, step).tables.jobs)
  {
    match step
    case Drain(w, view, pick, tenant, project, now) => DrainRowsKeep(cfg, s, w, view, pick, tenant, project, now);
    case Sweep(w, account, now, stamp) => SweepRowsKeep(s, w, account, now, stamp);
    case TryNext(w) => TryRowsKeep(cfg, s, w);
    case Gate(w, decision, now, draw, stamp) => GateRowsKeep(cfg, s, w, decision, now, draw, stamp);
    case Record(w, now, draw, stamp) => RecordRowsKeep(cfg, s, w, now, draw, stamp);
    case _ => OtherRowsKeep(cfg, s, step);
  }

  lemma KeptCurrent(c: Candidate, before: Job, after: Job)
    requires Current(c, before) && c.attemptCount <= before.attemptCount && RowKeeps(before, after)
    ensures Current(c, after)
  {}

  lemma StillCurrent(cfg: Config, s: System, w: WorkerId, cs: seq<Candidate>, after: seq<Job>)
    requires Inv(cfg, s) && ReadsCurrent(s) && RowsKeep(s.tables.jobs, after)
    requires StillScans(s.workers, w, cs)
    ensures AllCurrent(cs, after)
  {
    var all := s.workers[w].pc.candidates;
    assert PcOk(s.workers[w].pc, s.tables);
    forall i | 0 <= i < |all|
      ensures all[i].job < |after| && Current(all[i], after[all[i].job])
    {
      assert CandidateOk(all[i], s.tables.jobs);
      KeptCurrent(all[i], s.tables.jobs[all[i].job], after[all[i].job]);
    }
  }

  /** The candidates are those the worker had, or what is left of them without the first. */
  predicate StillScans(workers: map<WorkerId, Worker>, w: WorkerId, cs: seq<Candidate>) {
    && w in workers && workers[w].pc.Scanning?
    && var had := workers[w].pc.candidates;
       cs == had || (had != [] && cs == had[1..])
  }

  lemma TryScanners(s: System, w: WorkerId, v: WorkerId)
    requires v in DoTryNext(s, w).workers && DoTryNext(s, w).workers[v].pc.Scanning?
    ensures StillScans(s.workers, v, DoTryNext(s, w).workers[v].pc.candidates)
  {}

  lemma GateScanners(cfg: Config, s: System, w: WorkerId, decision: Decision, now: Time, draw: real, stamp: Time,
                     v: WorkerId)
    requires var t := DoGate(cfg, s, w, decision, now, draw, stamp); v in t.workers && t.workers[v].pc.Scanning?
    ensures StillScans(s.workers, v, DoGate(cfg, s, w, decision, now, draw, stamp).workers[v].pc.candidates)
  {}

  lemma OtherScanners(cfg: Config, s: System, step: Step, v: WorkerId)
    requires !step.TryNext? && !step.Gate? && !step.ReadCandidates?
    requires v in Apply(cfg, s, step).workers && Apply(cfg, s, step).workers[v].pc.Scanning?
    ensures StillScans(s.workers, v, Apply(cfg, s, step).workers[v].pc.candidates)
  {}

  /** Which scanning lists a step leaves behind: the old ones, one without its head, or one freshly read. */
  lemma ScannersAfter(cfg: Config, s: System, step: Step, v: WorkerId)
    requires v in Apply(cfg, s, step).workers && Apply(cfg, s, step).workers[v].pc.Scanning?
    ensures var t := Apply(cfg, s, step);
            var pc := t.workers[v].pc;
            || StillScans(s.workers, v, pc.candidates)
            || (t.tables == s.tables && pc.candidates == Candidates(s.tables.jobs, pc.account, |s.tables.jobs|))
  {
    match step
    case TryNext(w) => TryScanners(s, w, v);
    case Gate(w, decision, now, draw, stamp) => GateScanners(cfg, s, w, decision, now, draw, stamp, v);
    case ReadCandidates(_, _) =>
    case _ => OtherScanners(cfg, s, step, v);
  }

  lemma FreshAreCurrent(jobs: seq<Job>, account: string)
    ensures AllCurrent(Candidates(jobs, account, |jobs|), jobs)
  {
    CandidatesAreRead(jobs, account, |jobs|);
    var cs := Candidates(jobs, account, |jobs|);
    forall i | 0 <= i < |cs|
      ensures cs[i].job < |jobs| && Current(cs[i], jobs[cs[i].job])
    {
      assert ReadFrom(cs[i], jobs, account, |jobs|);
    }
  }

  lemma StepReadsCurrent(cfg: Config, s: System, step: Step)
    requires Inv(cfg, s) && ReadsCurrent(s)
    ensures ReadsCurrent(Apply(cfg, s, step))
  {
    var t := Apply(cfg, s, step);
    StepRowsKeep(cfg, s, step);
    forall w | w in t.workers && t.workers[w].pc.Scanning?
      ensures AllCurrent(t.workers[w].pc.candidates, t.tables.jobs)
    {
      ScannersAfter(cfg, s, step, w);
      var cs := t.workers[w].pc.candidates;
      if StillScans(s.workers, w, cs) {
        StillCurrent(cfg, s, w, cs, t.tables.jobs);
      } else {
        FreshAreCurrent(s.tables.jobs, t.workers[w].pc.account);
      }
    }
  }

  lemma {:induction false} EveryRunReadsCurrent(cfg: Config, steps: seq<Step>)
    ensures ReadsCurrent(Run(cfg, INITIAL, steps))
  {
    if steps != [] {
      EveryRunReadsCurrent(cfg, steps[..|steps| - 1]);
      EveryRunSafe(cfg, steps[..|steps| - 1]);
      StepReadsCurrent(cfg, Run(cfg, INITIAL, steps[..|steps| - 1]), steps[|steps| - 1]);
    }
  }

  /** In every run a claim that wins is not early: at the time the worker read, the waits that stand in the row now -
      not only those it had read - were over. A worker with outdated waits has an outdated attempt count too, and
      the attempt key turns it away. */
  lemma {:induction false} ClaimsAreNeverEarly(cfg: Config, steps: seq<Step>, w: WorkerId)
    requires var s := Run(cfg, INITIAL, steps);
             && w in s.workers && s.workers[w].pc.Scanning? && s.workers[w].pc.candidates != []
             && InRange(s.workers[w].pc.candidates[0], s.tables.jobs)
             && TryClaim(s.tables, s.workers[w].pc.candidates[0], s.workers[w].generation, s.workers[w].pc.now).1.Won?
    ensures var s := Run(cfg, INITIAL, steps);
            var row := s.tables.jobs[s.workers[w].pc.candidates[0].job];
            && row.status == Ready
            && (row.nextAttemptAt.Some? ==> row.nextAttemptAt.value <= s.workers[w].pc.now)
            && (row.floodWaitUntil.Some? ==> row.floodWaitUntil.value <= s.workers[w].pc.now)
  {
    var s := Run(cfg, INITIAL, steps);
    var pc := s.workers[w].pc;
    EveryRunSafe(cfg, steps);
    EveryRunReadsCurrent(cfg, steps);
    assert AllCurrent(pc.candidates, s.tables.jobs);
    assert PcOk(pc, s.tables);
    assert CandidateOk(pc.candidates[0], s.tables.jobs);
    TryClaimKeeps(s.tables, pc.candidates[0], s.workers[w].generation, pc.now);
  }

  /** In every run at most one worker stands between claiming a job and its gate. */
  lemma {:induction false} OneHolderPerJob(cfg: Config, steps: seq<Step>, w: WorkerId, v: WorkerId)
    requires var s := Run(cfg, INITIAL, steps);
             && w in s.workers && v in s.workers && s.workers[w].pc.Holding? && s.workers[v].pc.Holding?
             && s.workers[w].pc.job == s.workers[v].pc.job
    ensures w == v
  {
    EveryRunSafe(cfg, steps);
    var s := Run(cfg, INITIAL, steps);
    assert PcOk(s.workers[w].pc, s.tables) && PcOk(s.workers[v].pc, s.tables);
    assert Owned(s.workers[w].pc).Some?;
  }

  ghost predicate MapKept(before: Tables, after: Tables) {
    forall k :: k in before.mapped ==> k in after.mapped && after.mapped[k] == before.mapped[k]
  }

  lemma GateKeepsMap(cfg: Config, s: System, w: WorkerId, decision: Decision, now: Time, draw: real, stamp: Time)
    ensures DoGate(cfg, s, w, decision, now, draw, stamp).tables.mapped == s.tables.mapped
  {}

  lemma TryKeepsMap(s: System, w: WorkerId)
    ensures DoTryNext(s, w).tables.mapped == s.tables.mapped
  {}

  lemma RecordKeepsMap(cfg: Config, s: System, w: WorkerId, now: Time, draw: real, stamp: Time)
    ensures MapKept(s.tables, DoRecord(cfg, s, w, now, draw, stamp).tables)
  {}

  lemma {:induction false} StepKeepsMap(cfg: Config, s: System, step: Step)
    ensures MapKept(s.tables, Apply(cfg, s, step).tables)
  {
    match step
    case Drain(w, view, pick, tenant, project, now) =>
      if DoDrain(cfg, s, w, view, pick, tenant, project, now) != s {
        DrainMarks(s.tables, s.workers[w].pc.batch, PlanContext(cfg.rules, view, pick), tenant, project, now);
      }
    case Gate(w, decision, now, draw, stamp) => GateKeepsMap(cfg, s, w, decision, now, draw, stamp);
    case TryNext(w) => TryKeepsMap(s, w);
    case Record(w, now, draw, stamp) => RecordKeepsMap(cfg, s, w, now, draw, stamp);
    case _ =>
  }

  /** A message-map row, once written, stays as it is in every continuation: the first delivery of a route wins. */
  lemma {:induction false} MapRowsForGood(cfg: Config, s: System, steps: seq<Step>, k: MapKey)
    requires k in s.tables.mapped
    ensures k in Run(cfg, s, steps).tables.mapped && Run(cfg, s, steps).tables.mapped[k] == s.tables.mapped[k]
  {
    if steps != [] {
      MapRowsForGood(cfg, s, steps[..|steps| - 1], k);
      StepKeepsMap(cfg, Run(cfg, s, steps[..|steps| - 1]), steps[|steps| - 1]);
    }
  }
}
