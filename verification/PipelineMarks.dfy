/** The history of sends and reclaims is that of the job table. */
module PipelineMarks {
  import opened Text
  import opened Planner
  import opened Ingest
  import opened JobModel
  import opened Store
  import opened Pipeline
  import opened PipelineRuns

  predicate Sends(jobs: seq<Job>, j: JobId) {
    j < |jobs| && jobs[j].status == Sending
  }

  /** From s to t job j enters `sending` exactly when the entry is written, with the time stamped on the row. */
  ghost predicate EntryMatches(s: System, t: System, j: JobId) {
    && j < |t.tables.jobs|
    && (!Sends(s.tables.jobs, j) && Sends(t.tables.jobs, j)
        <==> t.marks == s.marks + [Entered(j, t.tables.jobs[j].updatedAt)])
  }

  lemma NoEntry(s: System, t: System, j: JobId)
    requires j < |t.tables.jobs| && (Sends(t.tables.jobs, j) ==> Sends(s.tables.jobs, j))
    requires t.marks == s.marks || (|t.marks| == |s.marks| + 1 && t.marks[|s.marks|].Reclaim?)
    ensures EntryMatches(s, t, j)
  {
    var entered := s.marks + [Entered(j, t.tables.jobs[j].updatedAt)];
    assert |entered| == |s.marks| + 1 && entered[|s.marks|].Entered?;
  }

  lemma GateEntry(cfg: Config, s: System, w: WorkerId, decision: Decision, now: Time, draw: real, stamp: Time, j: JobId)
    requires j < |s.tables.jobs|
    ensures EntryMatches(s, DoGate(cfg, s, w, decision, now, draw, stamp), j)
  {
    var t := DoGate(cfg, s, w, decision, now, draw, stamp);
    if t.marks == s.marks {
      assert |s.marks + [Entered(j, t.tables.jobs[j].updatedAt)]| != |s.marks|;
    } else {
      assert t.marks == s.marks + [Entered(s.workers[w].pc.job, stamp)];
      assert t.marks[|s.marks|] == Entered(s.workers[w].pc.job, stamp);
    }
  }

  lemma RecordEntry(cfg: Config, s: System, w: WorkerId, now: Time, draw: real, stamp: Time, j: JobId)
    requires j < |s.tables.jobs|
    ensures EntryMatches(s, DoRecord(cfg, s, w, now, draw, stamp), j)
  {
    var t := DoRecord(cfg, s, w, now, draw, stamp);
    RecordFollowsEdges(cfg, s, w, now, draw, stamp, j);
    NoEntry(s, t, j);
  }

  lemma DrainEntry(cfg: Config, s: System, w: WorkerId, view: MappingView, pick: Picker, tenant: string,
                   project: string,
                   now: Time, j: JobId)
    requires Inv(cfg, s) && j < |DoDrain(cfg, s, w, view, pick, tenant, project, now).tables.jobs|
    ensures EntryMatches(s, DoDrain(cfg, s, w, view, pick, tenant, project, now), j)
  {
    var t := DoDrain(cfg, s, w, view, pick, tenant, project, now);
    if t != s {
      DrainAddsFresh(s.tables, s.workers[w].pc.batch, PlanContext(cfg.rules, view, pick), tenant, project, now);
    }
    NoEntry(s, t, j);
  }

  lemma TryEntry(cfg: Config, s: System, w: WorkerId, j: JobId)
    requires j < |DoTryNext(s, w).tables.jobs|
    ensures EntryMatches(s, DoTryNext(s, w), j)
  {
    NoEntry(s, DoTryNext(s, w), j);
  }

  lemma SweepEntry(s: System, w: WorkerId, account: string, now: Time, stamp: Time, j: JobId)
    requires j < |DoSweep(s, w, account, now, stamp).tables.jobs|
    ensures EntryMatches(s, DoSweep(s, w, account, now, stamp), j)
  {
    NoEntry(s, DoSweep(s, w, account, now, stamp), j);
  }

  lemma InsertEntry(cfg: Config, s: System, row: Job, j: JobId)
    requires j < |Apply(cfg, s, PlatformInsert(row)).tables.jobs|
    ensures EntryMatches(s, Apply(cfg, s, PlatformInsert(row)), j)
  {
    NoEntry(s, Apply(cfg, s, PlatformInsert(row)), j);
  }

  lemma GateKeepsSize(cfg: Config, s: System, w: WorkerId, decision: Decision, now: Time, draw: real, stamp: Time)
    ensures |DoGate(cfg, s, w, decision, now, draw, stamp).tables.jobs| == |s.tables.jobs|
  {}

  lemma RecordKeepsSize(cfg: Config, s: System, w: WorkerId, now: Time, draw: real, stamp: Time)
    ensures |DoRecord(cfg, s, w, now, draw, stamp).tables.jobs| == |s.tables.jobs|
  {}

  lemma OtherEntry(cfg: Config, s: System, step: Step, j: JobId)
    requires step.Tick? || step.Start? || step.Arrive? || step.ReadInbox? || step.ReadCandidates? || step.Send?
             || step.Cancel?
    requires j < |Apply(cfg, s, step).tables.jobs|
    ensures EntryMatches(s, Apply(cfg, s, step), j)
  {
    NoEntry(s, Apply(cfg, s, step), j);
  }

  /** A row turns to `sending` in a step exactly when that step writes the entry into the history, with the time it
      stamps on the row: the results about the history are results about the table. */
  lemma {:induction false} EntersWhenMarked(cfg: Config, s: System, step: Step, j: JobId)
    requires Inv(cfg, s) && j < |Apply(cfg, s, step).tables.jobs|
    ensures EntryMatches(s, Apply(cfg, s, step), j)
  {
    match step
    case Drain(w, view, pick, tenant, project, now) => DrainEntry(cfg, s, w, view, pick, tenant, project, now, j);
    case TryNext(w) => TryEntry(cfg, s, w, j);
    case Gate(w, decision, now, draw, stamp) =>
      GateKeepsSize(cfg, s, w, decision, now, draw, stamp);
      GateEntry(cfg, s, w, decision, now, draw, stamp, j);
    case Record(w, now, draw, stamp) =>
      RecordKeepsSize(cfg, s, w, now, draw, stamp);
      RecordEntry(cfg, s, w, now, draw, stamp, j);
    case Sweep(w, account, now, stamp) => SweepEntry(s, w, account, now, stamp, j);
    case PlatformInsert(row) => InsertEntry(cfg, s, row, j);
    case _ => OtherEntry(cfg, s, step, j);
  }

  /** And it leaves `sending` for `ready` exactly when the step writes a reclaim that lists it. */
  lemma {:induction false} ReopensWhenMarked(cfg: Config, s: System, step: Step, j: JobId)
    requires j < |s.tables.jobs| && s.tables.jobs[j].status == Sending
    ensures j < |Apply(cfg, s, step).tables.jobs|
    ensures var t := Apply(cfg, s, step);
            t.tables.jobs[j].status == Ready
            <==> |t.marks| == |s.marks| + 1 && t.marks[|s.marks|].Reclaim? && j in t.marks[|s.marks|].jobs
  {
    StepFollowsEdges(cfg, s, step, j);
    if !step.Sweep? {
      assert !CanTransition(Sending, Ready);
    }
  }
}
