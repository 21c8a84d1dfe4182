/** When a cancel stops a send: exactly when no worker owns an attempt of the job any more. */
module PipelineCancels {
  import opened Text
  import opened Planner
  import opened Ingest
  import opened JobModel
  import opened Store
  import opened Pipeline
  import opened PipelineRuns

  /** The worker has claimed the job and has not made its transport call yet. */
  predicate Owns(pc: Pc, j: JobId) {
    Owned(pc).Some? && Owned(pc).value.job == j
  }

  ghost predicate HasOwner(workers: map<WorkerId, Worker>, j: JobId) {
    exists w :: w in workers && Owns(workers[w].pc, j)
  }

  /** A worker is on its way to send the job, and knows how. */
  ghost predicate OnItsWay(s: System, j: JobId)
    requires j < |s.tables.jobs|
  {
    KindOf(s.tables.jobs[j].kindText).Some? && HasOwner(s.workers, j)
  }

  lemma CallsPush(calls: seq<Call>, c: Call, j: JobId)
    ensures CallsFor(calls + [c], j) == CallsFor(calls, j) + if c.job == j then 1 else 0
  {
    assert (calls + [c])[..|calls|] == calls;
  }

  /** The owner is not created by any step while the job is cancelled: only a claim makes one. */
  lemma StepNoOwner(cfg: Config, s: System, step: Step, j: JobId)
    requires j < |s.tables.jobs| && s.tables.jobs[j].status == Cancelled && !HasOwner(s.workers, j)
    ensures !HasOwner(Apply(cfg, s, step).workers, j)
  {
    var t := Apply(cfg, s, step);
    forall w | w in t.workers
      ensures !Owns(t.workers[w].pc, j)
    {
      OwnerWasOwner(cfg, s, step, j, w);
    }
  }

  lemma OwnerWasOwner(cfg: Config, s: System, step: Step, j: JobId, w: WorkerId)
    requires j < |s.tables.jobs| && s.tables.jobs[j].status == Cancelled && w in Apply(cfg, s, step).workers
    ensures Owns(Apply(cfg, s, step).workers[w].pc, j) ==> w in s.workers && Owns(s.workers[w].pc, j)
  {
    match step
    case TryNext(v) => TryOwner(s, v, j, w);
    case Gate(v, decision, now, draw, stamp) => GateOwner(cfg, s, v, decision, now, draw, stamp, j, w);
    case _ =>
  }

  lemma TryOwner(s: System, v: WorkerId, j: JobId, w: WorkerId)
    requires j < |s.tables.jobs| && s.tables.jobs[j].status == Cancelled && w in DoTryNext(s, v).workers
    ensures Owns(DoTryNext(s, v).workers[w].pc, j) ==> w in s.workers && Owns(s.workers[w].pc, j)
  {}

  lemma GateOwner(cfg: Config, s: System, v: WorkerId, decision: Decision, now: Time, draw: real, stamp: Time, j: JobId,
                  w: WorkerId)
    requires w in DoGate(cfg, s, v, decision, now, draw, stamp).workers
    ensures Owns(DoGate(cfg, s, v, decision, now, draw, stamp).workers[w].pc, j) ==>
              w in s.workers && Owns(s.workers[w].pc, j)
  {}

  /** A transport call is made by an owner, for a job of a known kind. */
  lemma StepCallsFor(cfg: Config, s: System, step: Step, j: JobId)
    requires j < |s.tables.jobs|
    ensures CallsFor(Apply(cfg, s, step).calls, j) != CallsFor(s.calls, j) ==> OnItsWay(s, j)
  {
    if step.Send? {
      var t := DoSend(s, step.w, step.decision, step.targets, step.outcome);
      if t.calls != s.calls {
        var Cleared(job, attemptNo) := s.workers[step.w].pc;
        CallsPush(s.calls, Call(job, attemptNo), j);
        assert Owns(s.workers[step.w].pc, job);
      }
    }
  }

  lemma {:induction false} NobodyOnItsWay(cfg: Config, s: System, steps: seq<Step>, j: JobId)
    requires j < |s.tables.jobs| && s.tables.jobs[j].status == Cancelled && !OnItsWay(s, j)
    ensures j < |Run(cfg, s, steps).tables.jobs| && Run(cfg, s, steps).tables.jobs[j] == s.tables.jobs[j]
    ensures !OnItsWay(Run(cfg, s, steps), j)
    ensures CallsFor(Run(cfg, s, steps).calls, j) == CallsFor(s.calls, j)
  {
    if steps != [] {
      var front, last := steps[..|steps| - 1], steps[|steps| - 1];
      NobodyOnItsWay(cfg, s, front, j);
      var before := Run(cfg, s, front);
      StepFollowsEdges(cfg, before, last, j);
      StepCallsFor(cfg, before, last, j);
      if !HasOwner(before.workers, j) {
        StepNoOwner(cfg, before, last, j);
      }
    }
  }

  /** What an owner needs to make its call: the gate if that is still ahead, then a delivery. */
  function Finish(s: System, w: WorkerId): seq<Step>
    requires w in s.workers
  {
    var send := Step.Send(w, Allow, [1], Delivered([1]));
    if s.workers[w].pc.Holding? then [Gate(w, Allow, s.clock, 0.0, s.clock), send] else [send]
  }

  lemma ClearedSends(cfg: Config, s: System, w: WorkerId, j: JobId)
    requires w in s.workers && s.workers[w].pc.Cleared? && s.workers[w].pc.job == j
    requires j < |s.tables.jobs| && KindOf(s.tables.jobs[j].kindText).Some?
    ensures CallsFor(Apply(cfg, s, Step.Send(w, Allow, [1], Delivered([1]))).calls, j) == CallsFor(s.calls, j) + 1
  {
    CallsPush(s.calls, Call(j, s.workers[w].pc.attemptNo), j);
  }

  lemma OwnerSends(cfg: Config, s: System, w: WorkerId, j: JobId)
    requires j < |s.tables.jobs| && KindOf(s.tables.jobs[j].kindText).Some?
    requires w in s.workers && Owns(s.workers[w].pc, j) && s.workers[w].seen <= s.clock
    ensures CallsFor(Run(cfg, s, Finish(s, w)).calls, j) == CallsFor(s.calls, j) + 1
  {
    var steps := Finish(s, w);
    if s.workers[w].pc.Holding? {
      var gated := Apply(cfg, s, steps[0]);
      assert steps[..1][..0] == [] && steps[..1][0] == steps[0];
      assert Run(cfg, s, steps[..1]) == gated;
      assert gated.calls == s.calls && gated.tables.jobs[j].kindText == s.tables.jobs[j].kindText;
      ClearedSends(cfg, gated, w, j);
    } else {
      assert steps[..0] == [];
      ClearedSends(cfg, s, w, j);
    }
  }

  ghost predicate NeverSentAgain(cfg: Config, s: System, j: JobId) {
    forall more :: CallsFor(Run(cfg, s, more).calls, j) == CallsFor(s.calls, j)
  }

  /** In every run a cancelled job is never sent again, whatever follows, exactly when its kind is unknown or no
      worker stands between claiming one of its attempts and the transport. */
  lemma {:induction false} CancelStopsUnlessOwned(cfg: Config, steps: seq<Step>, j: JobId)
    requires var s := Run(cfg, INITIAL, steps); j < |s.tables.jobs| && s.tables.jobs[j].status == Cancelled
    ensures var s := Run(cfg, INITIAL, steps); NeverSentAgain(cfg, s, j) <==> !OnItsWay(s, j)
  {
    var s := Run(cfg, INITIAL, steps);
    if OnItsWay(s, j) {
      var w :| w in s.workers && Owns(s.workers[w].pc, j);
      EveryRunSafe(cfg, steps);
      OwnerSends(cfg, s, w, j);
      assert CallsFor(Run(cfg, s, Finish(s, w)).calls, j) != CallsFor(s.calls, j);
    } else {
      forall more
        ensures CallsFor(Run(cfg, s, more).calls, j) == CallsFor(s.calls, j)
      {
        NobodyOnItsWay(cfg, s, more, j);
      }
    }
  }
}
