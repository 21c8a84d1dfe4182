/** What the pipeline's invariant says about whole runs. */
module PipelineRuns {
  import opened Text
  import opened Planner
  import opened Ingest
  import opened JobModel
  import opened Store
  import opened Pipeline
  import opened PipelineSafety

  lemma InitialSafe(cfg: Config)
    ensures Inv(cfg, INITIAL)
  {}

  lemma {:induction false} RunSafe(cfg: Config, s: System, steps: seq<Step>)
    requires Inv(cfg, s)
    ensures Inv(cfg, Run(cfg, s, steps))
  {
    if steps == [] {
      assert Run(cfg, s, steps) == s;
    } else {
      var before := Run(cfg, s, steps[..|steps| - 1]);
      RunSafe(cfg, s, steps[..|steps| - 1]);
      StepKeeps(cfg, before, steps[|steps| - 1]);
    }
  }

  lemma {:induction false} EveryRunSafe(cfg: Config, steps: seq<Step>)
    ensures Inv(cfg, Run(cfg, INITIAL, steps))
  {
    InitialSafe(cfg);
    RunSafe(cfg, INITIAL, steps);
  }

  /** In every run, however stale the reads: attempt rows are numbered exactly 1..attempt_count. */
  lemma AttemptsAlwaysNumbered(cfg: Config, steps: seq<Step>, j: JobId, n: nat)
    ensures var t := Run(cfg, INITIAL, steps).tables;
            (j, n) in t.attempts <==> j < |t.jobs| && 1 <= n <= t.jobs[j].attemptCount
  {
    EveryRunSafe(cfg, steps);
  }

  /** In every run there is at most one job per idempotency key, and a processed inbox row has a job for every
      key its event must produce under the rules. */
  lemma ProcessedRowsHaveTheirJobs(cfg: Config, steps: seq<Step>)
    ensures var t := Run(cfg, INITIAL, steps).tables;
            && (forall i, k :: 0 <= i < k < |t.jobs| ==> t.jobs[i].key != t.jobs[k].key)
            && (forall r :: 0 <= r < |t.inbox.rows| && t.inbox.rows[r].processed ==>
                  var e := t.inbox.rows[r].event;
                  forall key :: key in WantedKeys(e, cfg.rules(e.accountId)) ==> HasKey(t.jobs, key))
  {
    EveryRunSafe(cfg, steps);
    var t := Run(cfg, INITIAL, steps).tables;
    forall r | 0 <= r < |t.inbox.rows| && t.inbox.rows[r].processed
      ensures var e := t.inbox.rows[r].event;
              forall key :: key in WantedKeys(e, cfg.rules(e.accountId)) ==> HasKey(t.jobs, key)
    {
      assert RowHandled(t.inbox.rows[r], t.jobs, cfg.rules);
    }
  }

  /** In every run two entries of one job into `sending` are stamped more than 300 s apart,
      and the job was reclaimed as stale between them. */
  lemma SendingEntriesApart(cfg: Config, steps: seq<Step>, i: int, k: int)
    requires var marks := Run(cfg, INITIAL, steps).marks;
             0 <= i < k < |marks| && marks[i].Entered? && marks[k].Entered? && marks[i].job == marks[k].job
    ensures var marks := Run(cfg, INITIAL, steps).marks;
            && marks[k].stamp > marks[i].stamp + 300.0
            && exists m :: i < m < k && marks[m].Reclaim? && marks[i].job in marks[m].jobs
  {
    EveryRunSafe(cfg, steps);
    var marks := Run(cfg, INITIAL, steps).marks;
    var m :| i < m < k && Reclaims(marks, m, marks[i].job, marks[i].stamp);
  }

  // ---------- transport calls ----------

  function CallsFor(calls: seq<Call>, j: JobId): nat {
    if calls == [] then 0
    else CallsFor(calls[..|calls| - 1], j) + if calls[|calls| - 1].job == j then 1 else 0
  }

  ghost function AttemptsCalled(calls: seq<Call>, j: JobId): set<nat> {
    set i | 0 <= i < |calls| && calls[i].job == j :: calls[i].attemptNo
  }

  lemma {:induction false} CallsAreDistinctAttempts(calls: seq<Call>, j: JobId)
    requires forall i, k :: 0 <= i < k < |calls| ==> calls[i] != calls[k]
    ensures |AttemptsCalled(calls, j)| == CallsFor(calls, j)
  {
    if calls == [] {
      assert AttemptsCalled(calls, j) == {};
    } else {
      var front, last := calls[..|calls| - 1], calls[|calls| - 1];
      CallsAreDistinctAttempts(front, j);
      if last.job == j {
        forall i | 0 <= i < |front| && front[i].job == j
          ensures front[i].attemptNo != last.attemptNo
        {
          assert calls[i] == front[i] && calls[i] != last;
        }
        assert AttemptsCalled(calls, j) == AttemptsCalled(front, j) + {last.attemptNo};
      } else {
        assert AttemptsCalled(calls, j) == AttemptsCalled(front, j);
      }
    }
  }

  function Numbers(k: nat): (s: set<nat>)
    ensures |s| == k && forall n :: n in s <==> 1 <= n <= k
  {
    if k == 0 then {} else Numbers(k - 1) + {k}
  }

  lemma SubsetSize<T>(a: set<T>, b: set<T>)
    requires a <= b
    ensures |a| <= |b|
  {
    assert b == a + (b - a);
  }

  /** In every run no attempt makes two transport calls, so a job is sent at most attempt_count times. */
  lemma {:induction false} TransportCallsBounded(cfg: Config, steps: seq<Step>, j: JobId)
    requires j < |Run(cfg, INITIAL, steps).tables.jobs|
    ensures var s := Run(cfg, INITIAL, steps);
            && CallsFor(s.calls, j) <= s.tables.jobs[j].attemptCount
            && forall i, k :: 0 <= i < k < |s.calls| ==> s.calls[i] != s.calls[k]
  {
    EveryRunSafe(cfg, steps);
    var s := Run(cfg, INITIAL, steps);
    var count := s.tables.jobs[j].attemptCount;
    CallsAreDistinctAttempts(s.calls, j);
    SubsetSize(AttemptsCalled(s.calls, j), Numbers(count));
  }

  // ---------- status walks ----------

  /** The statuses the runtime's steps never leave. */
  predicate Settled(s: JobStatus) {
    s !in {Ready, Leased, Sending, RetryWait}
  }

  ghost predicate MoveOk(step: Step, before: JobStatus, after: JobStatus) {
    before == after || CanTransition(before, after) || (step.Sweep? && before == Sending && after == Ready)
  }

  /** No step removes a job; it stays, follows a legal edge, or is taken back by the stale reclaim.
      A settled job's row is not touched at all. */
  lemma StepFollowsEdges(cfg: Config, s: System, step: Step, j: JobId)
    requires j < |s.tables.jobs|
    ensures j < |Apply(cfg, s, step).tables.jobs|
    ensures MoveOk(step, s.tables.jobs[j].status, Apply(cfg, s, step).tables.jobs[j].status)
    ensures Settled(s.tables.jobs[j].status) ==> Apply(cfg, s, step).tables.jobs[j] == s.tables.jobs[j]
  {
    match step
    case Drain(w, view, pick, tenant, project, now) =>
      if DoDrain(cfg, s, w, view, pick, tenant, project, now) != s {
        DrainAppends(s.tables, s.workers[w].pc.batch, PlanContext(cfg.rules, view, pick), tenant, project, now);
      }
    case Gate(w, decision, now, draw, stamp) => GateFollowsEdges(cfg, s, w, decision, now, draw, stamp, j);
    case Record(w, now, draw, stamp) => RecordFollowsEdges(cfg, s, w, now, draw, stamp, j);
    case TryNext(w) => TryFollowsEdges(s, w, j);
    case _ => OtherFollowsEdges(cfg, s, step, j);
  }

  lemma OtherFollowsEdges(cfg: Config, s: System, step: Step, j: JobId)
    requires j < |s.tables.jobs| && !step.Drain? && !step.Gate? && !step.Record? && !step.TryNext?
    ensures j < |Apply(cfg, s, step).tables.jobs|
    ensures MoveOk(step, s.tables.jobs[j].status, Apply(cfg, s, step).tables.jobs[j].status)
    ensures Settled(s.tables.jobs[j].status) ==> Apply(cfg, s, step).tables.jobs[j] == s.tables.jobs[j]
  {}

  lemma TryFollowsEdges(s: System, w: WorkerId, j: JobId)
    requires j < |s.tables.jobs|
    ensures var after := DoTryNext(s, w);
            && |after.tables.jobs| == |s.tables.jobs|
            && (after.tables.jobs[j] == s.tables.jobs[j]
                || (s.tables.jobs[j].status == Ready && after.tables.jobs[j].status == Leased))
  {}

  lemma GateFollowsEdges(cfg: Config, s: System, w: WorkerId, decision: Decision, now: Time, draw: real, stamp: Time,
                         j: JobId)
    requires j < |s.tables.jobs|
    ensures var after := DoGate(cfg, s, w, decision, now, draw, stamp);
            && |after.tables.jobs| == |s.tables.jobs|
            && (after.tables.jobs[j] == s.tables.jobs[j]
                || (s.tables.jobs[j].status == Leased && CanTransition(Leased, after.tables.jobs[j].status)))
  {}

  lemma RecordFollowsEdges(cfg: Config, s: System, w: WorkerId, now: Time, draw: real, stamp: Time, j: JobId)
    requires j < |s.tables.jobs|
    ensures var after := DoRecord(cfg, s, w, now, draw, stamp);
            && |after.tables.jobs| == |s.tables.jobs|
            && (after.tables.jobs[j] == s.tables.jobs[j]
                || (s.tables.jobs[j].status == Sending && CanTransition(Sending, after.tables.jobs[j].status)))
  {
    if Readable(s, w, stamp) && s.workers[w].pc.Executed? {
      var pc := s.workers[w].pc;
      RecordIsLegalEdge(pc.result, pc.attemptNo, cfg.retry, now, draw);
    }
  }

  lemma {:induction false} InsertPlansAppends(jobs: seq<Job>, plans: seq<DeliveryPlan>, tenant: string,
                                              project: string, now: Time)
    ensures jobs <= InsertPlans(jobs, plans, tenant, project, now)
  {
    if plans != [] {
      InsertPlansAppends(jobs, plans[..|plans| - 1], tenant, project, now);
    }
  }

  lemma {:induction false} DrainAppends(t: Tables, batch: seq<nat>, c: PlanContext, tenant: string, project: string,
                                        now: Time)
    requires BatchInRange(batch, t.inbox.rows)
    ensures t.jobs <= DrainRows(t, batch, c, tenant, project, now).jobs
  {
    if batch != [] {
      var front := batch[..|batch| - 1];
      DrainAppends(t, front, c, tenant, project, now);
      var before := DrainRows(t, front, c, tenant, project, now);
      InsertPlansAppends(before.jobs, PlansFor(before.inbox.rows[batch[|batch| - 1]].event, c), tenant, project, now);
    }
  }

  /** Terminal, uncertain, blocked and approval-waiting jobs are never moved or claimed again, in any continuation. */
  lemma {:induction false} SettledForever(cfg: Config, s: System, steps: seq<Step>, j: JobId)
    requires j < |s.tables.jobs| && Settled(s.tables.jobs[j].status)
    ensures j < |Run(cfg, s, steps).tables.jobs|
    ensures Run(cfg, s, steps).tables.jobs[j] == s.tables.jobs[j]
  {
    if steps != [] {
      var front := steps[..|steps| - 1];
      SettledForever(cfg, s, front, j);
      StepFollowsEdges(cfg, Run(cfg, s, front), steps[|steps| - 1], j);
    }
  }

  lemma SettledCovers(s: JobStatus)
    ensures Terminal(s) || s in {Uncertain, Blocked, WaitingApproval} ==> Settled(s)
    ensures Settled(s) ==> Terminal(s) || s in {Uncertain, Blocked, WaitingApproval, Pending, ConfirmedNotSent}
  {}

  // ---------- sending outside `sending` ----------

  /** In every run: a worker in front of its gate enters `sending` unless the job was cancelled meanwhile -
      and goes on to the transport either way. */
  lemma GateEntersUnlessCancelled(cfg: Config, steps: seq<Step>, w: WorkerId, now: Time, draw: real, stamp: Time)
    requires var s := Run(cfg, INITIAL, steps);
             && Readable(s, w, stamp) && s.workers[w].pc.Holding? && s.workers[w].pc.job < |s.tables.jobs|
             && KindOf(s.tables.jobs[s.workers[w].pc.job].kindText).Some?
    ensures var s := Run(cfg, INITIAL, steps);
            var j := s.workers[w].pc.job;
            var after := Apply(cfg, s, Gate(w, Allow, now, draw, stamp));
            && after.workers[w].pc == Cleared(j, s.workers[w].pc.attemptNo)
            && (after.tables.jobs[j].status == Sending <==> s.tables.jobs[j].status != Cancelled)
  {
    EveryRunSafe(cfg, steps);
    var s := Run(cfg, INITIAL, steps);
    assert PcOk(s.workers[w].pc, s.tables);
  }

  function CancelledSend(row: Job): seq<Step> {
    [PlatformInsert(row), Start("w", 1), Sweep("w", row.plan.accountId, 0.0, 0.0), ReadCandidates("w", 0.0),
     TryNext("w"),
     Cancel(0, Leased, 0.0), Gate("w", Allow, 0.0, 0.0, 0.0), Step.Send("w", Allow, [], Delivered([7]))]
  }

  /** A row as the platform writes it for an approved message. */
  predicate FreshSend(row: Job) {
    row.status == Ready && row.attemptCount == 0 && row.kindText == "send" && row.nextAttemptAt.None?
      && row.floodWaitUntil.None?
  }

  function Prefix(cfg: Config, row: Job, n: nat): System
    requires n <= 8
  {
    Run(cfg, INITIAL, CancelledSend(row)[..n])
  }

  lemma PrefixStep(cfg: Config, row: Job, n: nat)
    requires n < 8
    ensures Prefix(cfg, row, n + 1) == Apply(cfg, Prefix(cfg, row, n), CancelledSend(row)[n])
  {
    var steps := CancelledSend(row);
    assert steps[..n + 1][..n] == steps[..n];
  }

  lemma SweptPrefix(cfg: Config, row: Job)
    requires FreshSend(row)
    ensures var s := Prefix(cfg, row, 3);
            && s.clock == 0.0 && s.tables.jobs == [row] && s.tables.attempts == map[] && s.calls == []
            && "w" in s.workers && s.workers["w"] == Worker(1, Swept(row.plan.accountId), 0.0)
  {
    assert Prefix(cfg, row, 0) == INITIAL;
    PrefixStep(cfg, row, 0);
    var s1 := Prefix(cfg, row, 1);
    assert s1.tables.jobs == [row] && s1.tables.attempts == map[] && s1.clock == 0.0 && s1.calls == [];
    PrefixStep(cfg, row, 1);
    PrefixStep(cfg, row, 2);
  }

  lemma HoldingPrefix(cfg: Config, row: Job)
    requires FreshSend(row)
    ensures var s := Prefix(cfg, row, 5);
            && s.clock == 0.0 && |s.tables.jobs| == 1 && s.calls == []
            && s.tables.jobs[0].status == Leased && s.tables.jobs[0].kindText == "send"
            && s.tables.attempts == map[(0, 1) := Attempt(1, 0.0, None, None, None)]
            && "w" in s.workers && s.workers["w"] == Worker(1, Holding(0, 1), 0.0)
  {
    SweptPrefix(cfg, row);
    PrefixStep(cfg, row, 3);
    assert Candidates([row], row.plan.accountId, 0) == [];
    assert Prefix(cfg, row, 4).workers["w"].pc == Scanning(row.plan.accountId, [Candidate(0, 0, None, None)], 0.0);
    PrefixStep(cfg, row, 4);
  }

  lemma CancelledPrefix(cfg: Config, row: Job)
    requires FreshSend(row)
    ensures var s := Prefix(cfg, row, 6);
            && s.clock == 0.0 && |s.tables.jobs| == 1 && s.calls == []
            && s.tables.jobs[0].status == Cancelled && s.tables.jobs[0].kindText == "send"
            && "w" in s.workers && s.workers["w"] == Worker(1, Holding(0, 1), 0.0)
  {
    HoldingPrefix(cfg, row);
    PrefixStep(cfg, row, 5);
  }

  /** So a cancel that comes between claim and gate reports success and the message is sent nevertheless. */
  lemma CancelledJobIsSent(cfg: Config, row: Job)
    requires FreshSend(row)
    ensures var s := Run(cfg, INITIAL, CancelledSend(row));
            s.calls == [Call(0, 1)] && |s.tables.jobs| == 1 && s.tables.jobs[0].status == Cancelled
  {
    CancelledPrefix(cfg, row);
    PrefixStep(cfg, row, 6);
    var s7 := Prefix(cfg, row, 7);
    assert s7.tables.jobs == Prefix(cfg, row, 6).tables.jobs && s7.calls == [] && s7.workers["w"].pc == Cleared(0, 1);
    PrefixStep(cfg, row, 7);
    assert CancelledSend(row)[..8] == CancelledSend(row);
  }
}
