/** The repositories of runtime/storage/repos.py as methods that change the tables in place. */
module Repositories {
  import opened Text
  import opened Planner
  import opened Ingest
  import opened JobModel
  import opened Store

  class RuntimeStore {
    var sources: map<SourceKey, SourceMessage>
    var rows: seq<InboxRow>
    var jobs: seq<Job>
    var attempts: map<(JobId, nat), Attempt>
    var mapped: map<MapKey, MapRow>

    function Contents(): Tables
      reads this
    {
      Tables(InboxTables(sources, rows), jobs, attempts, mapped)
    }

    constructor ()
      ensures Contents() == EMPTY
    {
      sources, rows, jobs, attempts, mapped := map[], [], [], map[], map[];
    }

    /** EventInboxRepository.ingest: the source row is changed first and rolled back on a duplicate event. */
    method IngestEvent(a: Arrival) returns (accepted: bool)
      modifies this
      ensures Contents() == old(Contents()).(inbox := IngestTables(old(Contents()).inbox, a))
      ensures accepted <==> !Known(old(rows), a.event)
    {
      var saved := sources;
      if KeyOf(a) !in sources {
        sources := sources[KeyOf(a) := NewSource(a.event)];
      } else {
        var source := sources[KeyOf(a)];
        if a.event.revision > source.latestRevision {
          source := source.(latestRevision := a.event.revision);
          if a.event.payloadHash.Some? && a.event.payloadHash.value != "" {
            source := source.(contentHash := a.event.payloadHash);
          }
        }
        if a.event.kind == Delete {
          source := source.(tombstone := true);
        }
        sources := sources[KeyOf(a) := source];
      }
      if Known(rows, a.event) {
        sources := saved;
        return false;
      }
      rows := rows + [InboxRow(a.event, a.ingestSeq, false)];
      return true;
    }

    /** next_unprocessed: the earliest unprocessed rows, as many as the limit allows. */
    method NextUnprocessed(limit: nat) returns (batch: seq<nat>)
      ensures IsNextBatch(rows, batch, limit)
      ensures batch == NextBatch(rows, limit)
    {
      NextBatchIsNext(rows, limit);
      batch := NextBatch(rows, limit);
    }

    /** drain_to_jobs: plan every row of the batch, insert its jobs, mark it processed, commit once. */
    method DrainToJobs(batch: seq<nat>, c: PlanContext, tenant: string, project: string, now: Time)
      requires BatchInRange(batch, rows)
      modifies this
      ensures Contents() == DrainRows(old(Contents()), batch, c, tenant, project, now)
    {
      ghost var start := Contents();
      for n := 0 to |batch|
        invariant BatchInRange(batch, rows) && |rows| == |start.inbox.rows|
        invariant Contents() == DrainRows(start, batch[..n], c, tenant, project, now)
      {
        assert batch[..n + 1][..n] == batch[..n];
        var event := rows[batch[n]].event;
        var plans := PlanEvent(event, c.rules(event.accountId), c.view, c.pick);
        InsertEach(plans, tenant, project, now);
        rows := MarkProcessed(rows, batch[n]);
      }
      assert batch[..|batch|] == batch;
    }

    /** The inner loop of drain_to_jobs: one savepoint per plan. */
    method InsertEach(plans: seq<DeliveryPlan>, tenant: string, project: string, now: Time)
      modifies this`jobs
      ensures jobs == InsertPlans(old(jobs), plans, tenant, project, now)
    {
      for i := 0 to |plans|
        invariant jobs == InsertPlans(old(jobs), plans[..i], tenant, project, now)
      {
        assert plans[..i + 1][..i] == plans[..i];
        var job := JobFromPlan(plans[i], tenant, project, now);
        if !HasKey(jobs, job.key) {
          jobs := jobs + [job];
        }
      }
      assert plans[..|plans|] == plans;
    }

    /** create_from_plan: the new job's id, or None when the key already has a job. */
    method CreateFromPlan(plan: DeliveryPlan, tenant: string, project: string, now: Time) returns (id: Option<JobId>)
      modifies this`jobs
      ensures jobs == InsertJob(old(jobs), JobFromPlan(plan, tenant, project, now))
      ensures id == if HasKey(old(jobs), IdempotencyKey(plan)) then None else Some(|old(jobs)|)
      ensures id.Some? ==>
                && |jobs| == id.value + 1 && jobs[..id.value] == old(jobs)
                && var job := jobs[id.value];
                   && job.plan == plan && job.key == IdempotencyKey(plan)
                   && job.tenant == tenant && job.project == project
                   && (job.status == WaitingApproval <==> plan.requiresApproval)
                   && (job.status == Ready <==> !plan.requiresApproval)
                   && job.attemptCount == 0 && job.nextAttemptAt == job.floodWaitUntil == None
    {
      var job := JobFromPlan(plan, tenant, project, now);
      if HasKey(jobs, job.key) {
        return None;
      }
      jobs := jobs + [job];
      return Some(|jobs| - 1);
    }

    /** The candidate loop of claim_next on rows that were read earlier. */
    method ClaimFrom(cs: seq<Candidate>, generation: int, now: Time) returns (outcome: ClaimOutcome)
      requires CandidatesInRange(cs, jobs)
      modifies this`jobs, this`attempts
      ensures (Contents(), outcome) == ClaimFirst(old(Contents()), cs, generation, now)
    {
      ghost var start := Contents();
      for n := 0 to |cs|
        invariant Contents() == start && CandidatesInRange(cs, jobs)
        invariant ClaimFirst(start, cs, generation, now) == ClaimFirst(start, cs[n..], generation, now)
      {
        var c := cs[n];
        assert cs[n..][0] == c && cs[n..][1..] == cs[n + 1..];
        if !Due(c, now) || jobs[c.job].status != Ready {
          continue;
        }
        var attemptNo := c.attemptCount + 1;
        if (c.job, attemptNo) in attempts {
          return Conflict;
        }
        jobs := jobs[c.job := jobs[c.job].(status := Leased, attemptCount := attemptNo, updatedAt := now)];
        attempts := attempts[(c.job, attemptNo) := Attempt(generation, now, None, None, None)];
        return Won(c.job, attemptNo);
      }
      return Skipped;
    }

    /** claim_next with nobody in between: reclaim, read, try. It cannot abort, it wins the oldest due ready job,
        and it comes back empty-handed only when the account has none. */
    method ClaimNext(account: string, generation: int, reclaimNow: Time, stamp: Time, now: Time)
      returns (outcome: ClaimOutcome)
      requires AttemptsNumbered(Contents()) && KeysUnique(jobs)
      modifies this`jobs, this`attempts
      ensures AttemptsNumbered(Contents()) && KeysUnique(jobs)
      ensures var t := ReclaimStale(old(Contents()), account, reclaimNow, stamp);
              (Contents(), outcome) == ClaimFirst(t, Candidates(t.jobs, account, |t.jobs|), generation, now)
      ensures !outcome.Conflict?
      ensures var before := ReclaimStale(old(Contents()), account, reclaimNow, stamp).jobs;
              && (outcome.Skipped? <==> forall j :: 0 <= j < |before| ==> !Claimable(before[j], account, now))
              && (outcome.Won? ==> outcome.job < |before| && Claimable(before[outcome.job], account, now)
                                   && outcome.attemptNo == before[outcome.job].attemptCount + 1
                                   && forall j :: 0 <= j < outcome.job ==> !Claimable(before[j], account, now))
    {
      ReclaimKeeps(Contents(), account, reclaimNow, stamp);
      ghost var t := ReclaimStale(Contents(), account, reclaimNow, stamp);
      ReclaimStaleSending(account, reclaimNow, stamp);
      var cs := Candidates(jobs, account, |jobs|);
      FreshRead(jobs, account);
      FreshClaimNeverAborts(t, cs, account, generation, now);
      outcome := ClaimFrom(cs, generation, now);
    }

    /** The account's jobs stuck in `sending` become ready, and only they; their open attempts are abandoned, and only
        those. None of the account's jobs is stuck any more. */
    method ReclaimStaleSending(account: string, now: Time, stamp: Time)
      modifies this`jobs, this`attempts
      ensures Contents() == ReclaimStale(old(Contents()), account, now, stamp)
      ensures |jobs| == |old(jobs)|
      ensures forall j :: 0 <= j < |jobs| ==>
                jobs[j] == if Stuck(old(jobs)[j], account, now)
                           then old(jobs)[j].(status := Ready, updatedAt := stamp) else old(jobs)[j]
      ensures forall j :: 0 <= j < |jobs| ==> !Stuck(jobs[j], account, now)
      ensures OrphansClosed(old(jobs), old(attempts), attempts, account, now, stamp)
    {
      var cutoff := now - SENDING_STALE;
      var staleIds: set<JobId> := {};
      for j := 0 to |jobs|
        invariant |jobs| == |old(jobs)| && attempts == old(attempts)
        invariant forall i :: 0 <= i < j ==> jobs[i] == Reclaimed(old(jobs)[i], account, cutoff, stamp)
        invariant forall i :: j <= i < |jobs| ==> jobs[i] == old(jobs)[i]
        invariant forall i :: i in staleIds <==> 0 <= i < j && Stale(old(jobs)[i], account, cutoff)
      {
        if jobs[j].plan.accountId == account && jobs[j].status == Sending && jobs[j].updatedAt < cutoff {
          jobs := jobs[j := jobs[j].(status := Ready, updatedAt := stamp)];
          staleIds := staleIds + {j};
        }
      }
      if staleIds != {} {
        attempts := map a | a in attempts ::
          if a.0 in staleIds && attempts[a].finishedAt.None?
          then attempts[a].(result := Some(Abandoned), finishedAt := Some(stamp)) else attempts[a];
      }
      ReclaimedTables(old(Contents()), Contents(), account, now, stamp);
    }

    /** DeliveryJobRepository.transition. */
    method MoveJob(job: JobId, src: JobStatus, dst: JobStatus, next: Option<Time>, stamp: Time) returns (moved: bool)
      modifies this`jobs
      ensures (Contents(), moved) == Transition(old(Contents()), job, src, dst, next, stamp)
      ensures moved <==> job < |old(jobs)| && old(jobs)[job].status == src
      ensures moved ==> jobs == old(jobs)[job := old(jobs)[job].(status := dst, nextAttemptAt := next,
                                                 floodWaitUntil := None, lastError := None, updatedAt := stamp)]
    {
      moved := job < |jobs| && jobs[job].status == src;
      if moved {
        jobs := jobs[job := MovedJob(jobs[job], dst, next, None, None, stamp)];
      }
    }

    /** DeliveryJobRepository.record_result. */
    method FinishAttempt(job: JobId, attemptNo: nat, r: ResultRecord, stamp: Time) returns (recorded: bool)
      modifies this`jobs, this`attempts, this`mapped
      ensures (Contents(), recorded) == RecordResult(old(Contents()), job, attemptNo, r, stamp)
    {
      if job >= |jobs| || jobs[job].status != Sending {
        return false;
      }
      var row := jobs[job];
      jobs := jobs[job := MovedJob(row, r.newStatus, r.nextAttemptAt, r.floodWaitUntil, r.errorClass, stamp)];
      if (job, attemptNo) in attempts {
        attempts := attempts[(job, attemptNo) := attempts[(job, attemptNo)].(
                      finishedAt := Some(stamp), result := Some(Recorded(r.newStatus)), errorClass := r.errorClass)];
      }
      if r.newStatus == Succeeded && row.kindText == "send" && r.targetMessageId.Some? && MapKeyOf(row) !in mapped {
        mapped := mapped[MapKeyOf(row) :=
                    MapRow(MappedMessage(r.targetMessageId.value, row.plan.accountId), row.plan.revision, job)];
      }
      return true;
    }

    /** WorkerHostMain._cancel_job: three guarded updates in turn. */
    method CancelJob(job: JobId, stamp: Time) returns (cancelled: bool)
      modifies this`jobs
      ensures cancelled <==> job < |old(jobs)| && old(jobs)[job].status in {Ready, RetryWait, Leased}
      ensures cancelled ==>
                Contents() == Transition(old(Contents()), job, old(jobs)[job].status, Cancelled, None, stamp).0
      ensures cancelled ==> |jobs| == |old(jobs)| && jobs[job].status == Cancelled
                            && forall j :: 0 <= j < |jobs| && j != job ==> jobs[j] == old(jobs)[j]
      ensures !cancelled ==> Contents() == old(Contents())
    {
      var movable: seq<JobStatus> := [Ready, RetryWait, Leased];
      for n := 0 to |movable|
        invariant Contents() == old(Contents())
        invariant job < |jobs| ==> jobs[job].status !in movable[..n]
      {
        cancelled := MoveJob(job, movable[n], Cancelled, None, stamp);
        if cancelled {
          return true;
        }
      }
      assert movable[..|movable|] == movable;
      return false;
    }
  }

  lemma ReclaimedAttempts(before: Tables, after: map<(JobId, nat), Attempt>, account: string, now: Time, stamp: Time)
    requires OrphansClosed(before.jobs, before.attempts, after, account, now, stamp)
    ensures after == ReclaimStale(before, account, now, stamp).attempts
  {
    var reclaimed := ReclaimStale(before, account, now, stamp).attempts;
    assert reclaimed.Keys == before.attempts.Keys;
    forall a | a in after
      ensures after[a] == reclaimed[a]
    {
    }
  }

  lemma ReclaimedTables(before: Tables, after: Tables, account: string, now: Time, stamp: Time)
    requires after.inbox == before.inbox && after.mapped == before.mapped && |after.jobs| == |before.jobs|
    requires forall j :: 0 <= j < |before.jobs| ==>
               after.jobs[j] == Reclaimed(before.jobs[j], account, now - SENDING_STALE, stamp)
    requires OrphansClosed(before.jobs, before.attempts, after.attempts, account, now, stamp)
    ensures after == ReclaimStale(before, account, now, stamp)
  {
    var t := ReclaimStale(before, account, now, stamp);
    assert after.jobs == t.jobs;
    ReclaimedAttempts(before, after.attempts, account, now, stamp);
  }

  /** A job of the account whose row has stood in sending for more than 300 seconds. */
  predicate Stuck(job: Job, account: string, now: Time) {
    job.plan.accountId == account && job.status == Sending && now - job.updatedAt > 300.0
  }

  /** The open attempts of the account's stuck jobs are closed as abandoned; nothing else about attempts changes. */
  ghost predicate OrphansClosed(jobs: seq<Job>, before: map<(JobId, nat), Attempt>, after: map<(JobId, nat), Attempt>,
                                account: string, now: Time, stamp: Time)
  {
    && after.Keys == before.Keys
    && forall a: (JobId, nat) :: a in before ==>
         after[a] == if a.0 < |jobs| && Stuck(jobs[a.0], account, now) && before[a].finishedAt.None?
                     then before[a].(result := Some(Abandoned), finishedAt := Some(stamp)) else before[a]
  }

  predicate Claimable(job: Job, account: string, now: Time) {
    && job.plan.accountId == account && job.status == Ready
    && (job.nextAttemptAt.Some? ==> job.nextAttemptAt.value <= now)
    && (job.floodWaitUntil.Some? ==> job.floodWaitUntil.value <= now)
  }

  /** `cs` are up-to-date rows of the claimable jobs, in order. */
  ghost predicate FreshCandidates(jobs: seq<Job>, cs: seq<Candidate>, account: string, now: Time) {
    && (forall i :: 0 <= i < |cs| ==> ReadFrom(cs[i], jobs, account, |jobs|))
    && (forall j: JobId :: j < |jobs| && Claimable(jobs[j], account, now) ==> Lists(cs, j))
    && (forall i, k :: 0 <= i < k < |cs| ==> cs[i].job < cs[k].job)
  }

  lemma FreshRead(jobs: seq<Job>, account: string)
    ensures forall now :: FreshCandidates(jobs, Candidates(jobs, account, |jobs|), account, now)
  {
    CandidatesAreRead(jobs, account, |jobs|);
    CandidatesAscend(jobs, account, |jobs|);
    forall j: JobId | j < |jobs| && jobs[j].status == Ready && jobs[j].plan.accountId == account
      ensures Lists(Candidates(jobs, account, |jobs|), j)
    {
      CandidateListed(jobs, account, |jobs|, j);
    }
  }

  lemma FreshTail(jobs: seq<Job>, cs: seq<Candidate>, account: string, now: Time)
    requires cs != [] && FreshCandidates(jobs, cs, account, now) && !Due(cs[0], now)
    ensures FreshCandidates(jobs, cs[1..], account, now)
  {
    assert ReadFrom(cs[0], jobs, account, |jobs|);
    forall j: JobId | j < |jobs| && Claimable(jobs[j], account, now)
      ensures Lists(cs[1..], j)
    {
      var i :| 0 <= i < |cs| && cs[i].job == j;
      assert cs[1..][i - 1].job == j;
    }
  }

  lemma FirstIsOldest(jobs: seq<Job>, cs: seq<Candidate>, account: string, now: Time)
    requires cs != [] && FreshCandidates(jobs, cs, account, now) && Due(cs[0], now)
    ensures Claimable(jobs[cs[0].job], account, now)
    ensures forall j :: 0 <= j < cs[0].job ==> !Claimable(jobs[j], account, now)
  {
    assert ReadFrom(cs[0], jobs, account, |jobs|);
    forall j: JobId | j < |jobs| && Claimable(jobs[j], account, now)
      ensures j >= cs[0].job
    {
      var i :| 0 <= i < |cs| && cs[i].job == j;
    }
  }

  lemma {:induction false} FreshClaimNeverAborts(t: Tables, cs: seq<Candidate>, account: string, generation: int,
                                                 now: Time)
    requires AttemptsNumbered(t) && KeysUnique(t.jobs)
    requires FreshCandidates(t.jobs, cs, account, now)
    ensures CandidatesInRange(cs, t.jobs)
    ensures var (after, outcome) := ClaimFirst(t, cs, generation, now);
            && AttemptsNumbered(after) && KeysUnique(after.jobs) && !outcome.Conflict?
            && (outcome.Skipped? <==> forall j :: 0 <= j < |t.jobs| ==> !Claimable(t.jobs[j], account, now))
            && (outcome.Won? ==> outcome.job < |t.jobs| && Claimable(t.jobs[outcome.job], account, now)
                                 && outcome.attemptNo == t.jobs[outcome.job].attemptCount + 1
                                 && forall j :: 0 <= j < outcome.job ==> !Claimable(t.jobs[j], account, now))
    decreases |cs|
  {
    if cs == [] {
      assert forall j: JobId :: j < |t.jobs| && Claimable(t.jobs[j], account, now) ==> Lists(cs, j);
    } else {
      assert ReadFrom(cs[0], t.jobs, account, |t.jobs|);
      TryClaimKeeps(t, cs[0], generation, now);
      if Due(cs[0], now) {
        FirstIsOldest(t.jobs, cs, account, now);
      } else {
        FreshTail(t.jobs, cs, account, now);
        FreshClaimNeverAborts(t, cs[1..], account, generation, now);
      }
    }
  }
}
