/** What becomes of an attempt row after the claim that wrote it. */
module PipelineAttempts {
  import opened Text
  import opened Planner
  import opened Ingest
  import opened JobModel
  import opened Store
  import opened Pipeline
  import opened PipelineRuns

  /** The step is a stale reclaim that finds the attempt's job stuck and the attempt open. */
  predicate Abandons(s: System, step: Step, a: (JobId, nat)) {
    && step.Sweep? && Readable(s, step.w, step.now) && step.now <= step.stamp <= s.clock && s.workers[step.w].pc == Idle
    && a in s.tables.attempts && s.tables.attempts[a].finishedAt.None?
    && a.0 < |s.tables.jobs| && Stale(s.tables.jobs[a.0], step.account, step.now - SENDING_STALE)
  }

  /** The step records a result under the attempt's number while its job is in sending. */
  predicate Finishes(s: System, step: Step, a: (JobId, nat)) {
    && step.Record? && Readable(s, step.w, step.stamp) && s.workers[step.w].pc.Executed?
    && (s.workers[step.w].pc.job, s.workers[step.w].pc.attemptNo) == a
    && a in s.tables.attempts
    && a.0 < |s.tables.jobs| && s.tables.jobs[a.0].status == Sending
  }

  function Finished(cfg: Config, s: System, step: Step, a: (JobId, nat)): Attempt
    requires Finishes(s, step, a)
  {
    var pc := s.workers[step.w].pc;
    var r := RecordFor(pc.result, pc.attemptNo, cfg.retry, step.now, step.draw);
    s.tables.attempts[a].(finishedAt := Some(step.stamp), result := Some(Recorded(r.newStatus)),
                          errorClass := r.errorClass)
  }

  /** From s to t the attempt row changes as the step says, and not otherwise. */
  ghost predicate ChangesAsSaid(cfg: Config, s: System, step: Step, t: System, a: (JobId, nat))
    requires a in s.tables.attempts
  {
    && a in t.tables.attempts
    && var before, after := s.tables.attempts[a], t.tables.attempts[a];
       && after.workerGeneration == before.workerGeneration && after.startedAt == before.startedAt
       && (Abandons(s, step, a) ==> after == before.(result := Some(Abandoned), finishedAt := Some(step.stamp)))
       && (Finishes(s, step, a) ==> after == Finished(cfg, s, step, a))
       && (after != before <==> Abandons(s, step, a) || (Finishes(s, step, a) && before != Finished(cfg, s, step, a)))
  }

  lemma SweepChanges(cfg: Config, s: System, w: WorkerId, account: string, now: Time, stamp: Time, a: (JobId, nat))
    requires a in s.tables.attempts
    ensures ChangesAsSaid(cfg, s, Sweep(w, account, now, stamp), DoSweep(s, w, account, now, stamp), a)
  {}

  lemma RecordChanges(cfg: Config, s: System, w: WorkerId, now: Time, draw: real, stamp: Time, a: (JobId, nat))
    requires a in s.tables.attempts
    ensures ChangesAsSaid(cfg, s, Record(w, now, draw, stamp), DoRecord(cfg, s, w, now, draw, stamp), a)
  {}

  lemma ClaimChanges(cfg: Config, s: System, w: WorkerId, a: (JobId, nat))
    requires Inv(cfg, s) && a in s.tables.attempts
    ensures ChangesAsSaid(cfg, s, TryNext(w), DoTryNext(s, w), a)
  {}

  lemma DrainChanges(cfg: Config, s: System, w: WorkerId, view: MappingView, pick: Picker, tenant: string,
                     project: string,
                     now: Time, a: (JobId, nat))
    requires a in s.tables.attempts
    ensures ChangesAsSaid(cfg, s, Drain(w, view, pick, tenant, project, now),
                          DoDrain(cfg, s, w, view, pick, tenant, project, now), a)
  {
    if DoDrain(cfg, s, w, view, pick, tenant, project, now) != s {
      DrainMarks(s.tables, s.workers[w].pc.batch, PlanContext(cfg.rules, view, pick), tenant, project, now);
    }
  }

  lemma OtherChanges(cfg: Config, s: System, step: Step, a: (JobId, nat))
    requires a in s.tables.attempts && !step.Sweep? && !step.Record? && !step.TryNext? && !step.Drain?
    ensures ChangesAsSaid(cfg, s, step, Apply(cfg, s, step), a)
  {}

  /** One step changes an attempt row exactly in two ways: a stale reclaim closes it as abandoned, or a record under
      its number finishes it - again, if it was finished before. Who started it and when never changes. */
  lemma {:induction false} AttemptChangesExactly(cfg: Config, s: System, step: Step, a: (JobId, nat))
    requires Inv(cfg, s) && a in s.tables.attempts
    ensures ChangesAsSaid(cfg, s, step, Apply(cfg, s, step), a)
  {
    match step
    case Sweep(w, account, now, stamp) => SweepChanges(cfg, s, w, account, now, stamp, a);
    case Record(w, now, draw, stamp) => RecordChanges(cfg, s, w, now, draw, stamp, a);
    case TryNext(w) => ClaimChanges(cfg, s, w, a);
    case Drain(w, view, pick, tenant, project, now) => DrainChanges(cfg, s, w, view, pick, tenant, project, now, a);
    case _ => OtherChanges(cfg, s, step, a);
  }

  /** In every continuation of a run an attempt row stays there, with its worker generation and its start. */
  lemma {:induction false} AttemptsKeepTheirStart(cfg: Config, s: System, steps: seq<Step>, a: (JobId, nat))
    requires Inv(cfg, s) && a in s.tables.attempts
    ensures a in Run(cfg, s, steps).tables.attempts
    ensures var before, after := s.tables.attempts[a], Run(cfg, s, steps).tables.attempts[a];
            after.workerGeneration == before.workerGeneration && after.startedAt == before.startedAt
  {
    if steps != [] {
      var front := steps[..|steps| - 1];
      AttemptsKeepTheirStart(cfg, s, front, a);
      RunSafe(cfg, s, front);
      AttemptChangesExactly(cfg, Run(cfg, s, front), steps[|steps| - 1], a);
    }
  }

  /** Gate, transport and record of the one job of HoldingPrefix. */
  function Rest(): seq<Step> {
    [Gate("w", Allow, 0.0, 0.0, 0.0), Step.Send("w", Allow, [], Delivered([7])), Record("w", 0.0, 0.0, 0.0)]
  }

  lemma {:induction false} RestStep(cfg: Config, s: System, n: nat)
    requires n < 3
    ensures Run(cfg, s, Rest()[..n + 1]) == Apply(cfg, Run(cfg, s, Rest()[..n]), Rest()[n])
  {
    assert Rest()[..n + 1][..n] == Rest()[..n];
  }

  lemma {:induction false} RestSends(cfg: Config, s: System)
    requires "w" in s.workers && s.workers["w"] == Worker(1, Holding(0, 1), 0.0) && s.clock == 0.0
    requires |s.tables.jobs| == 1 && s.tables.jobs[0].status == Leased && s.tables.jobs[0].kindText == "send"
    ensures var t := Run(cfg, s, Rest()[..2]);
            && t.clock == 0.0 && t.tables.attempts == s.tables.attempts
            && |t.tables.jobs| == 1 && t.tables.jobs[0].status == Sending
            && "w" in t.workers && t.workers["w"].pc.Executed? && t.workers["w"].seen == 0.0
            && t.workers["w"].pc.job == 0 && t.workers["w"].pc.attemptNo == 1
  {
    assert Run(cfg, s, Rest()[..0]) == s;
    RestStep(cfg, s, 0);
    var gated := Run(cfg, s, Rest()[..1]);
    assert gated.workers["w"] == Worker(1, Cleared(0, 1), 0.0) && gated.tables.jobs[0].status == Sending;
    RestStep(cfg, s, 1);
  }

  /** So attempt rows are updated: the run in which one job is claimed and sent opens its attempt and finishes it. */
  lemma {:induction false} AttemptRowIsUpdated(cfg: Config, row: Job)
    requires FreshSend(row)
    ensures var s := Prefix(cfg, row, 5);
            && (0, 1) in s.tables.attempts && s.tables.attempts[(0, 1)].finishedAt.None?
            && (0, 1) in Run(cfg, s, Rest()).tables.attempts
            && Run(cfg, s, Rest()).tables.attempts[(0, 1)].finishedAt == Some(0.0)
  {
    HoldingPrefix(cfg, row);
    var s := Prefix(cfg, row, 5);
    RestSends(cfg, s);
    RestStep(cfg, s, 2);
    assert Rest()[..3] == Rest();
  }
}
