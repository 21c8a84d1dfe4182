/** Safety of the pipeline over every run. */
module PipelineSafety {
  import opened Text
  import opened Planner
  import opened Ingest
  import opened JobModel
  import opened Store
  import opened Pipeline

  // ---------- framing ----------

  /** A worker in front of its gate keeps what it knows of its job. */
  ghost predicate StillHeld(pc: Pc, jobs: seq<Job>) {
    pc.Holding? ==>
      pc.job < |jobs| && pc.attemptNo == jobs[pc.job].attemptCount && jobs[pc.job].status in {Leased, Cancelled}
  }

  lemma PcKeep(pc: Pc, t: Tables, t': Tables)
    requires PcOk(pc, t) && JobsGrow(t.jobs, t'.jobs) && |t.inbox.rows| <= |t'.inbox.rows| && StillHeld(pc, t'.jobs)
    ensures PcOk(pc, t')
  {}

  lemma WorkersKeep(s: System, t: Tables, w: WorkerId, pc: Pc)
    requires WorkersOk(s) && w in s.workers && PcOk(pc, t)
    requires JobsGrow(s.tables.jobs, t.jobs) && |s.tables.inbox.rows| <= |t.inbox.rows|
    requires forall v :: v in s.workers && v != w ==> StillHeld(s.workers[v].pc, t.jobs)
    ensures WorkersOk(Put(s.(tables := t), w, pc))
  {
    forall v | v in s.workers && v != w
      ensures PcOk(s.workers[v].pc, t)
    {
      PcKeep(s.workers[v].pc, s.tables, t);
    }
  }

  /** No job leaves the send back to rest, and none joins `sending`. */
  ghost predicate EntriesSafe(jobs: seq<Job>, jobs': seq<Job>) {
    && |jobs| <= |jobs'|
    && forall j :: 0 <= j < |jobs| && !AtRest(jobs[j].status) ==>
         && !AtRest(jobs'[j].status)
         && (jobs'[j].status == Sending ==> jobs[j].status == Sending && jobs'[j].updatedAt == jobs[j].updatedAt)
  }

  lemma EntriesKeep(marks: seq<Mark>, jobs: seq<Job>, jobs': seq<Job>)
    requires EntriesOk(marks, jobs) && EntriesSafe(jobs, jobs')
    ensures EntriesOk(marks, jobs')
  {
    forall i | 0 <= i < |marks|
      ensures EntryOk(marks, i, jobs')
    {
      assert EntryOk(marks, i, jobs);
    }
  }

  lemma CallsKeep(calls: seq<Call>, jobs: seq<Job>, jobs': seq<Job>)
    requires CallsOk(calls, jobs) && JobsGrow(jobs, jobs')
    ensures CallsOk(calls, jobs')
  {}

  /** Worker w goes on with tables t, without calls or marks and without owning more than before. */
  lemma PlainStep(cfg: Config, s: System, t: Tables, w: WorkerId, pc: Pc)
    requires Inv(cfg, s) && w in s.workers && PcOk(pc, t) && TablesOk(cfg, t)
    requires JobsGrow(s.tables.jobs, t.jobs) && |s.tables.inbox.rows| <= |t.inbox.rows|
    requires forall v :: v in s.workers && v != w ==> StillHeld(s.workers[v].pc, t.jobs)
    requires EntriesSafe(s.tables.jobs, t.jobs)
    requires Owned(pc).None?
    ensures Inv(cfg, Put(s.(tables := t), w, pc))
  {
    WorkersKeep(s, t, w, pc);
    EntriesKeep(s.marks, s.tables.jobs, t.jobs);
    CallsKeep(s.calls, s.tables.jobs, t.jobs);
  }

  /** The environment changes the tables. */
  lemma OutsideStep(cfg: Config, s: System, t: Tables)
    requires Inv(cfg, s) && TablesOk(cfg, t)
    requires JobsGrow(s.tables.jobs, t.jobs) && |s.tables.inbox.rows| <= |t.inbox.rows|
    requires forall v :: v in s.workers ==> StillHeld(s.workers[v].pc, t.jobs)
    requires EntriesSafe(s.tables.jobs, t.jobs)
    ensures Inv(cfg, s.(tables := t))
  {
    forall v | v in s.workers
      ensures PcOk(s.workers[v].pc, t)
    {
      PcKeep(s.workers[v].pc, s.tables, t);
    }
    EntriesKeep(s.marks, s.tables.jobs, t.jobs);
    CallsKeep(s.calls, s.tables.jobs, t.jobs);
  }

  // ---------- one lemma per step ----------

  lemma ArriveKeeps(cfg: Config, s: System, a: Arrival)
    requires Inv(cfg, s)
    ensures Inv(cfg, Apply(cfg, s, Arrive(a)))
  {
    var t := s.tables.(inbox := IngestTables(s.tables.inbox, a));
    assert RowsUnique(t.inbox.rows);
    OutsideStep(cfg, s, t);
  }

  lemma InsertKeeps(cfg: Config, s: System, row: Job)
    requires Inv(cfg, s)
    ensures Inv(cfg, Apply(cfg, s, PlatformInsert(row)))
  {
    if row.attemptCount == 0 && row.status == Ready {
      var t := s.tables.(jobs := InsertJob(s.tables.jobs, row));
      HasKeyGrows(s.tables.jobs, t.jobs);
      OutsideStep(cfg, s, t);
    }
  }

  lemma DrainStepKeeps(cfg: Config, s: System, w: WorkerId, view: MappingView, pick: Picker, tenant: string,
                       project: string,
                       now: Time)
    requires Inv(cfg, s)
    ensures Inv(cfg, DoDrain(cfg, s, w, view, pick, tenant, project, now))
  {
    if Readable(s, w, now) && s.workers[w].pc.Drafting? && BatchInRange(s.workers[w].pc.batch, s.tables.inbox.rows) {
      var batch, c := s.workers[w].pc.batch, PlanContext(cfg.rules, view, pick);
      DrainKeeps(s.tables, batch, c, tenant, project, now);
      var t := DrainRows(s.tables, batch, c, tenant, project, now);
      assert forall i | 0 <= i < |s.tables.jobs| :: t.jobs[i] == s.tables.jobs[i];
      PlainStep(cfg, s, t, w, Idle);
    }
  }

  lemma SweepKeeps(cfg: Config, s: System, w: WorkerId, account: string, now: Time, stamp: Time)
    requires Inv(cfg, s)
    ensures Inv(cfg, DoSweep(s, w, account, now, stamp))
  {
    if Readable(s, w, now) && now <= stamp <= s.clock && s.workers[w].pc == Idle {
      var t := ReclaimStale(s.tables, account, now, stamp);
      var mark := Reclaim(StaleJobs(s.tables.jobs, account, now), now);
      ReclaimKeeps(s.tables, account, now, stamp);
      HasKeyGrows(s.tables.jobs, t.jobs);
      WorkersKeep(s, t, w, Swept(account));
      CallsKeep(s.calls, s.tables.jobs, t.jobs);
      SweepEntries(s.marks, s.tables, account, now, stamp);
      ApartKeep(s.marks, mark);
      var s' := DoSweep(s, w, account, now, stamp);
      assert s'.marks == s.marks + [mark];
      forall v | v in s'.workers
        ensures !HeldAfter(mark, s'.workers[v].pc)
      {
        assert v != w ==> PcOk(s.workers[v].pc, s.tables);
      }
    }
  }

  /** The reclaim settles every entry of the jobs it takes back. */
  lemma SweepEntries(marks: seq<Mark>, t: Tables, account: string, now: Time, stamp: Time)
    requires EntriesOk(marks, t.jobs)
    ensures EntriesOk(marks + [Reclaim(StaleJobs(t.jobs, account, now), now)],
                      ReclaimStale(t, account, now, stamp).jobs)
  {
    var mark, jobs' := Reclaim(StaleJobs(t.jobs, account, now), now), ReclaimStale(t, account, now, stamp).jobs;
    var all := marks + [mark];
    forall i | 0 <= i < |all|
      ensures EntryOk(all, i, jobs')
    {
      if i < |marks| && marks[i].Entered? {
        assert EntryOk(marks, i, t.jobs);
        var j := marks[i].job;
        if m :| i < m && Reclaims(marks, m, j, marks[i].stamp) {
          assert Reclaims(all, m, j, marks[i].stamp);
        } else if Stale(t.jobs[j], account, now - SENDING_STALE) {
          assert Reclaims(all, |marks|, j, marks[i].stamp);
        }
      }
    }
  }

  /** A mark that is no entry separates nothing. */
  lemma ApartKeep(marks: seq<Mark>, mark: Mark)
    requires EntriesApart(marks) && mark.Reclaim?
    ensures EntriesApart(marks + [mark])
  {
    var all := marks + [mark];
    forall i, k | 0 <= i < k < |all| && all[i].Entered? && all[k].Entered? && all[i].job == all[k].job
      ensures all[k].stamp > all[i].stamp + SENDING_STALE
      ensures exists m :: i < m < k && Reclaims(all, m, all[i].job, all[i].stamp)
    {
      var m :| i < m < k && Reclaims(marks, m, marks[i].job, marks[i].stamp);
      assert Reclaims(all, m, all[i].job, all[i].stamp);
    }
  }

  lemma ReadCandidatesKeeps(cfg: Config, s: System, w: WorkerId, now: Time)
    requires Inv(cfg, s)
    ensures Inv(cfg, DoReadCandidates(s, w, now))
  {
    if Readable(s, w, now) && s.workers[w].pc.Swept? {
      var account := s.workers[w].pc.account;
      var cs := Candidates(s.tables.jobs, account, |s.tables.jobs|);
      CandidatesAreRead(s.tables.jobs, account, |s.tables.jobs|);
      PlainStep(cfg, s, s.tables, w, Scanning(account, cs, now));
    }
  }

  lemma {:induction false} TryNextKeeps(cfg: Config, s: System, w: WorkerId)
    requires Inv(cfg, s)
    ensures Inv(cfg, DoTryNext(s, w))
  {
    if w in s.workers && s.workers[w].pc.Scanning? {
      var pc := s.workers[w].pc;
      if pc.candidates == [] || !InRange(pc.candidates[0], s.tables.jobs) {
        PlainStep(cfg, s, s.tables, w, Idle);
      } else {
        var c := pc.candidates[0];
        assert CandidateOk(c, s.tables.jobs);
        TryClaimKeeps(s.tables, c, s.workers[w].generation, pc.now);
        var (t, outcome) := TryClaim(s.tables, c, s.workers[w].generation, pc.now);
        match outcome {
          case Skipped => PlainStep(cfg, s, s.tables, w, Scanning(pc.account, pc.candidates[1..], pc.now));
          case Conflict => PlainStep(cfg, s, s.tables, w, Idle);
          case Won(_, _) => WonKeeps(cfg, s, w, c);
        }
      }
    }
  }

  /** The attempt number just claimed is new: nobody owns it and nobody has called for it. */
  lemma {:induction false} WonKeeps(cfg: Config, s: System, w: WorkerId, c: Candidate)
    requires Inv(cfg, s) && w in s.workers && s.workers[w].pc.Scanning? && CandidateOk(c, s.tables.jobs)
    requires TryClaim(s.tables, c, s.workers[w].generation, s.workers[w].pc.now).1.Won?
    ensures var (t, outcome) := TryClaim(s.tables, c, s.workers[w].generation, s.workers[w].pc.now);
            Inv(cfg, Put(s.(tables := t), w, Holding(outcome.job, outcome.attemptNo)))
  {
    TryClaimKeeps(s.tables, c, s.workers[w].generation, s.workers[w].pc.now);
    var t := TryClaim(s.tables, c, s.workers[w].generation, s.workers[w].pc.now).0;
    var pc := Holding(c.job, c.attemptCount + 1);
    HasKeyGrows(s.tables.jobs, t.jobs);
    forall v | v in s.workers && v != w
      ensures StillHeld(s.workers[v].pc, t.jobs) && Owned(s.workers[v].pc) != Owned(pc)
    {
      assert PcOk(s.workers[v].pc, s.tables);
    }
    WorkersKeep(s, t, w, pc);
    EntriesKeep(s.marks, s.tables.jobs, t.jobs);
    CallsKeep(s.calls, s.tables.jobs, t.jobs);
    assert Owned(pc).value !in s.calls;
    assert ReclaimsSeen(s.clock, Put(s.(tables := t), w, pc).workers, s.marks);
  }

  lemma GateKeeps(cfg: Config, s: System, w: WorkerId, decision: Decision, now: Time, draw: real, stamp: Time)
    requires Inv(cfg, s)
    ensures Inv(cfg, DoGate(cfg, s, w, decision, now, draw, stamp))
  {
    if Readable(s, w, stamp) && s.workers[w].pc.Holding? && s.workers[w].pc.job < |s.tables.jobs| {
      var Holding(job, attemptNo) := s.workers[w].pc;
      OthersHoldOtherJobs(s, w);
      if KindOf(s.tables.jobs[job].kindText).None? {
        PlainStep(cfg, s, s.tables, w, Idle);
      } else {
        match decision
        case BlockedLease => GateBlocks(cfg, s, w, Ready, None, stamp);
        case BlockedRate => GateBlocks(cfg, s, w, Ready, NextAttemptAt(cfg.retry, attemptNo, now, draw), stamp);
        case Allow => AllowKeeps(cfg, s, w, stamp);
        case _ => GateBlocks(cfg, s, w, Blocked, None, stamp);
      }
    }
  }

  lemma GateBlocks(cfg: Config, s: System, w: WorkerId, dst: JobStatus, next: Option<Time>, stamp: Time)
    requires Inv(cfg, s) && w in s.workers && s.workers[w].pc.Holding? && dst in {Ready, Blocked}
    ensures Inv(cfg, Put(s.(tables := Transition(s.tables, s.workers[w].pc.job, Leased, dst, next, stamp).0), w, Idle))
  {
    var job := s.workers[w].pc.job;
    var t := Transition(s.tables, job, Leased, dst, next, stamp).0;
    OthersHoldOtherJobs(s, w);
    TransitionKeeps(s.tables, job, Leased, dst, next, stamp);
    HasKeyGrows(s.tables.jobs, t.jobs);
    PlainStep(cfg, s, t, w, Idle);
  }

  lemma OthersHoldOtherJobs(s: System, w: WorkerId)
    requires WorkersOk(s) && OwnersOk(s.workers, s.calls) && w in s.workers && s.workers[w].pc.Holding?
    ensures forall v :: v in s.workers && v != w && s.workers[v].pc.Holding? ==>
              s.workers[v].pc.job != s.workers[w].pc.job
  {
    assert PcOk(s.workers[w].pc, s.tables);
    forall v | v in s.workers && v != w && s.workers[v].pc.Holding?
      ensures s.workers[v].pc.job != s.workers[w].pc.job
    {
      assert PcOk(s.workers[v].pc, s.tables);
      assert Owned(s.workers[v].pc) != Owned(s.workers[w].pc);
    }
  }

  lemma {:induction false} AllowKeeps(cfg: Config, s: System, w: WorkerId, stamp: Time)
    requires Inv(cfg, s) && Readable(s, w, stamp) && s.workers[w].pc.Holding? && s.workers[w].pc.job < |s.tables.jobs|
    ensures var Holding(job, attemptNo) := s.workers[w].pc;
            var (t, moved) := Transition(s.tables, job, Leased, Sending, None, stamp);
            Inv(cfg, Put(s.(tables := t, marks := if moved then s.marks + [Entered(job, stamp)] else s.marks), w,
                         Cleared(job, attemptNo)))
  {
    var Holding(job, attemptNo) := s.workers[w].pc;
    var (t, moved) := Transition(s.tables, job, Leased, Sending, None, stamp);
    TransitionKeeps(s.tables, job, Leased, Sending, None, stamp);
    HasKeyGrows(s.tables.jobs, t.jobs);
    OthersHoldOtherJobs(s, w);
    assert PcOk(s.workers[w].pc, s.tables);
    forall v | v in s.workers && v != w
      ensures StillHeld(s.workers[v].pc, t.jobs)
    {
      assert PcOk(s.workers[v].pc, s.tables);
    }
    WorkersKeep(s, t, w, Cleared(job, attemptNo));
    CallsKeep(s.calls, s.tables.jobs, t.jobs);
    OwnersHandOver(s.workers, s.calls, w, Worker(s.workers[w].generation, Cleared(job, attemptNo), s.clock));
    if moved {
      EntryAppend(s, w, t, stamp);
      MarksSeen(s, w, Cleared(job, attemptNo), Entered(job, stamp));
    }
  }

  /** Passing an owned attempt on within one worker. */
  lemma OwnersHandOver(workers: map<WorkerId, Worker>, calls: seq<Call>, w: WorkerId, worker: Worker)
    requires OwnersOk(workers, calls) && w in workers && Owned(worker.pc) == Owned(workers[w].pc)
    ensures OwnersOk(workers[w := worker], calls)
  {}

  lemma MarksSeen(s: System, w: WorkerId, pc: Pc, mark: Mark)
    requires ReclaimsSeen(s.clock, s.workers, s.marks) && w in s.workers && !pc.Holding? && mark.Entered?
    ensures ReclaimsSeen(s.clock, Put(s, w, pc).workers, s.marks + [mark])
  {}

  /** A new entry: every earlier entry of the job has been reclaimed, by a reclaim this worker started after. */
  lemma EntryAppend(s: System, w: WorkerId, t: Tables, stamp: Time)
    requires EntriesOk(s.marks, s.tables.jobs) && ReclaimsSeen(s.clock, s.workers, s.marks) && EntriesApart(s.marks)
    requires Readable(s, w, stamp) && s.workers[w].pc.Holding? && s.workers[w].pc.job < |s.tables.jobs|
    requires s.tables.jobs[s.workers[w].pc.job].status == Leased
    requires t == Transition(s.tables, s.workers[w].pc.job, Leased, Sending, None, stamp).0
    ensures EntriesOk(s.marks + [Entered(s.workers[w].pc.job, stamp)], t.jobs)
    ensures EntriesApart(s.marks + [Entered(s.workers[w].pc.job, stamp)])
  {
    var job, n := s.workers[w].pc.job, |s.marks|;
    var all := s.marks + [Entered(job, stamp)];
    forall i, m | 0 <= i < n && s.marks[i].Entered? && Reclaims(s.marks, m, s.marks[i].job, s.marks[i].stamp)
      ensures Reclaims(all, m, s.marks[i].job, s.marks[i].stamp)
    {
    }
    forall i | 0 <= i < |all|
      ensures EntryOk(all, i, t.jobs)
    {
      if i < n && s.marks[i].Entered? {
        assert EntryOk(s.marks, i, s.tables.jobs);
        if m :| i < m && Reclaims(s.marks, m, s.marks[i].job, s.marks[i].stamp) {
          assert Reclaims(all, m, all[i].job, all[i].stamp);
        }
      }
    }
    forall i, k | 0 <= i < k < |all| && all[i].Entered? && all[k].Entered? && all[i].job == all[k].job
      ensures all[k].stamp > all[i].stamp + SENDING_STALE
      ensures exists m :: i < m < k && Reclaims(all, m, all[i].job, all[i].stamp)
    {
      if k < n {
        var m :| i < m < k && Reclaims(s.marks, m, s.marks[i].job, s.marks[i].stamp);
        assert Reclaims(all, m, all[i].job, all[i].stamp);
      } else {
        assert EntryOk(s.marks, i, s.tables.jobs);
        var m :| i < m && Reclaims(s.marks, m, job, s.marks[i].stamp);
        assert HeldAfter(s.marks[m], s.workers[w].pc);
        assert Reclaims(all, m, all[i].job, all[i].stamp);
      }
    }
  }

  lemma {:induction false} SendKeeps(cfg: Config, s: System, w: WorkerId, decision: Decision, targets: seq<int>,
                                     outcome: TransportOutcome)
    requires Inv(cfg, s)
    ensures Inv(cfg, DoSend(s, w, decision, targets, outcome))
  {
    if w in s.workers && s.workers[w].pc.Cleared? && s.workers[w].pc.job < |s.tables.jobs| {
      var Cleared(job, attemptNo) := s.workers[w].pc;
      var kind := KindOf(s.tables.jobs[job].kindText);
      if kind.Some? {
        var (result, called) := Execute(kind.value, decision, targets, outcome);
        var pc := Executed(job, attemptNo, result);
        assert PcOk(s.workers[w].pc, s.tables);
        if called {
          forall v | v in s.workers && v != w
            ensures StillHeld(s.workers[v].pc, s.tables.jobs)
          {
            assert PcOk(s.workers[v].pc, s.tables);
          }
          WorkersKeep(s, s.tables, w, pc);
          OwnersCall(s.workers, s.calls, w, Worker(s.workers[w].generation, pc, s.clock));
          assert Call(job, attemptNo) !in s.calls by {
            assert Owned(s.workers[w].pc).value == Call(job, attemptNo);
          }
          assert CallsOk(s.calls + [Call(job, attemptNo)], s.tables.jobs);
        } else {
          PlainStep(cfg, s, s.tables, w, pc);
        }
      }
    }
  }

  /** The owner's call uses its attempt up. */
  lemma OwnersCall(workers: map<WorkerId, Worker>, calls: seq<Call>, w: WorkerId, worker: Worker)
    requires OwnersOk(workers, calls) && w in workers && Owned(workers[w].pc).Some? && Owned(worker.pc).None?
    ensures OwnersOk(workers[w := worker], calls + [Owned(workers[w].pc).value])
  {}

  lemma RecordedTables(cfg: Config, s: System, job: JobId, attemptNo: nat, r: ResultRecord, stamp: Time)
    requires Inv(cfg, s) && CanTransition(Sending, r.newStatus)
    ensures var t := RecordResult(s.tables, job, attemptNo, r, stamp).0;
            && TablesOk(cfg, t) && JobsGrow(s.tables.jobs, t.jobs) && t.inbox == s.tables.inbox
            && EntriesSafe(s.tables.jobs, t.jobs)
            && forall v :: v in s.workers ==> StillHeld(s.workers[v].pc, t.jobs)
  {
    var t := RecordResult(s.tables, job, attemptNo, r, stamp).0;
    RecordKeeps(s.tables, job, attemptNo, r, stamp);
    HasKeyGrows(s.tables.jobs, t.jobs);
    assert forall v :: v in s.workers ==> PcOk(s.workers[v].pc, s.tables);
  }

  lemma {:induction false} RecordStepKeeps(cfg: Config, s: System, w: WorkerId, now: Time, draw: real, stamp: Time)
    requires Inv(cfg, s)
    ensures Inv(cfg, DoRecord(cfg, s, w, now, draw, stamp))
  {
    if Readable(s, w, stamp) && s.workers[w].pc.Executed? {
      var Executed(job, attemptNo, result) := s.workers[w].pc;
      var r := RecordFor(result, attemptNo, cfg.retry, now, draw);
      RecordIsLegalEdge(result, attemptNo, cfg.retry, now, draw);
      RecordedTables(cfg, s, job, attemptNo, r, stamp);
      PlainStep(cfg, s, RecordResult(s.tables, job, attemptNo, r, stamp).0, w, Idle);
    }
  }

  lemma CancelKeeps(cfg: Config, s: System, job: JobId, src: JobStatus, stamp: Time)
    requires Inv(cfg, s)
    ensures Inv(cfg, Apply(cfg, s, Cancel(job, src, stamp)))
  {
    if src in {Ready, RetryWait, Leased} && stamp <= s.clock {
      var t := Transition(s.tables, job, src, Cancelled, None, stamp).0;
      TransitionKeeps(s.tables, job, src, Cancelled, None, stamp);
      HasKeyGrows(s.tables.jobs, t.jobs);
      assert forall v :: v in s.workers ==> PcOk(s.workers[v].pc, s.tables);
      OutsideStep(cfg, s, t);
    }
  }

  lemma TickKeeps(cfg: Config, s: System, time: Time)
    requires Inv(cfg, s)
    ensures Inv(cfg, Apply(cfg, s, Tick(time)))
  {}

  lemma StartKeeps(cfg: Config, s: System, w: WorkerId, generation: int)
    requires Inv(cfg, s)
    ensures Inv(cfg, Apply(cfg, s, Start(w, generation)))
  {}

  lemma ReadInboxKeeps(cfg: Config, s: System, w: WorkerId, batch: seq<nat>)
    requires Inv(cfg, s)
    ensures Inv(cfg, DoReadInbox(s, w, batch))
  {
    if DoReadInbox(s, w, batch) != s {
      PlainStep(cfg, s, s.tables, w, Drafting(batch));
    }
  }

  lemma StepKeeps(cfg: Config, s: System, step: Step)
    requires Inv(cfg, s)
    ensures Inv(cfg, Apply(cfg, s, step))
  {
    match step
    case Tick(time) => TickKeeps(cfg, s, time);
    case Start(w, generation) => StartKeeps(cfg, s, w, generation);
    case Arrive(a) => ArriveKeeps(cfg, s, a);
    case PlatformInsert(row) => InsertKeeps(cfg, s, row);
    case ReadInbox(w, batch) => ReadInboxKeeps(cfg, s, w, batch);
    case Drain(w, view, pick, tenant, project, now) => DrainStepKeeps(cfg, s, w, view, pick, tenant, project, now);
    case Sweep(w, account, now, stamp) => SweepKeeps(cfg, s, w, account, now, stamp);
    case ReadCandidates(w, now) => ReadCandidatesKeeps(cfg, s, w, now);
    case TryNext(w) => TryNextKeeps(cfg, s, w);
    case Gate(w, decision, now, draw, stamp) => GateKeeps(cfg, s, w, decision, now, draw, stamp);
    case Send(w, decision, targets, outcome) => SendKeeps(cfg, s, w, decision, targets, outcome);
    case Record(w, now, draw, stamp) => RecordStepKeeps(cfg, s, w, now, draw, stamp);
    case Cancel(job, src, stamp) => CancelKeeps(cfg, s, job, src, stamp);
  }
}
