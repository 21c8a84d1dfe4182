/** What one send leaves behind, in terms of what the policy and the transport answered: the job's row, its attempt,
    the message map, the calls made and whether the runner halts (AccountRunner.send_next and _record). */
module Outcomes {
  import opened Text
  import opened Planner
  import opened JobModel
  import opened Store
  import opened Repositories
  import opened Pipeline
  import opened Runner

  /** The kind written into a job is the kind that is executed; one more spelling of "send" is understood. */
  lemma KindReadsBack(kind: PlanKind, text: string)
    ensures KindOf(PlanKindText(kind)) == Some(kind)
    ensures KindOf("send_message") == Some(PlanKind.Send)
    ensures KindOf(text).None? <==> text !in {"send", "send_message", "edit", "delete", "tombstone"}
  {}

  /** From one table to the other only this job's row has changed - to this status, these waits and this error. */
  ghost predicate JobEnds(t: Tables, after: Tables, job: JobId, stamp: Time, status: JobStatus, next: Option<Time>,
                          flood: Option<Time>, error: Option<ErrorClass>)
    requires job < |t.jobs|
  {
    && after.inbox == t.inbox && |after.jobs| == |t.jobs|
    && (forall j :: 0 <= j < |t.jobs| && j != job ==> after.jobs[j] == t.jobs[j])
    && after.jobs[job] == t.jobs[job].(status := status, nextAttemptAt := next, floodWaitUntil := flood,
                                       lastError := error, updatedAt := stamp)
  }

  /** And this attempt is finished with that status and error, no other. */
  ghost predicate AttemptEnds(t: Tables, after: Tables, a: (JobId, nat), stamp: Time, status: JobStatus,
                              error: Option<ErrorClass>)
  {
    && after.attempts.Keys == t.attempts.Keys
    && forall b :: b in t.attempts ==>
         after.attempts[b] == if b != a then t.attempts[b]
                              else t.attempts[b].(finishedAt := Some(stamp), result := Some(Recorded(status)),
                                                  errorClass := error)
  }

  ghost predicate Ends(t: Tables, after: Tables, job: JobId, attemptNo: nat, stamp: Time, status: JobStatus,
                       next: Option<Time>, flood: Option<Time>, error: Option<ErrorClass>)
    requires job < |t.jobs|
  {
    && JobEnds(t, after, job, stamp, status, next, flood, error)
    && AttemptEnds(t, after, (job, attemptNo), stamp, status, error)
  }

  /** A wait within the bounds of the backoff. */
  predicate WithinBackoff(policy: RetryPolicy, now: Time, until: Time) {
    now <= until <= now + policy.maxDelay * (1.0 + policy.jitter)
  }

  predicate ProperPolicy(policy: RetryPolicy, draw: real) {
    0.0 <= policy.baseDelay && 0.0 <= policy.maxDelay && -policy.jitter <= draw <= policy.jitter
  }

  /** Tried again after a wait, until the attempts are used up. */
  ghost predicate RetriesOrDies(t: Tables, after: Tables, job: JobId, attemptNo: nat, policy: RetryPolicy, now: Time,
                                stamp: Time, error: ErrorClass)
    requires job < |t.jobs|
  {
    if attemptNo < policy.maxAttempts
    then exists until :: WithinBackoff(policy, now, until)
                         && Ends(t, after, job, attemptNo, stamp, RetryWait, Some(until), None, Some(error))
    else Ends(t, after, job, attemptNo, stamp, DeadLetter, None, None, Some(error))
  }

  /** The source message of a sent job is mapped to the first message sent for it, once. */
  ghost predicate MapsSent(t: Tables, after: Tables, job: JobId, ids: seq<int>)
    requires job < |t.jobs|
  {
    var row := t.jobs[job];
    var p := row.plan;
    var key := MapKey(row.tenant, row.project,
                      RouteSource(p.routeId, p.sourceScope, p.sourceChatId, p.sourceMessageId));
    if row.kindText == "send" && ids != [] && key !in t.mapped
    then after.mapped == t.mapped[key := MapRow(MappedMessage(ids[0], p.accountId), p.revision, job)]
    else after.mapped == t.mapped
  }

  /** What the answer of the transport leaves behind. */
  ghost predicate Stored(t: Tables, after: Tables, job: JobId, attemptNo: nat, outcome: TransportOutcome,
                         policy: RetryPolicy, now: Time, stamp: Time)
    requires job < |t.jobs|
  {
    match outcome
    case Delivered(ids) =>
      Ends(t, after, job, attemptNo, stamp, Succeeded, None, None, None) && MapsSent(t, after, job, ids)
    case Raised =>
      Ends(t, after, job, attemptNo, stamp, Uncertain, None, None, Some(ResultUnknown)) && after.mapped == t.mapped
    case TransportError(kind, until) =>
      && after.mapped == t.mapped
      && match kind
         case FloodWaitError =>
           if until.Some? then Ends(t, after, job, attemptNo, stamp, RetryWait, None, until, Some(FloodWait))
           else RetriesOrDies(t, after, job, attemptNo, policy, now, stamp, FloodWait)
         case TransientError => RetriesOrDies(t, after, job, attemptNo, policy, now, stamp, Transient)
         case UnknownError =>
           Ends(t, after, job, attemptNo, stamp, Uncertain, None, None, Some(ResultUnknown))
         case PermissionError =>
           Ends(t, after, job, attemptNo, stamp, Blocked, None, None, Some(PermissionBlocked))
         case ContentError =>
           Ends(t, after, job, attemptNo, stamp, FailedPermanent, None, None, Some(ContentInvalid))
         case AuthError =>
           Ends(t, after, job, attemptNo, stamp, FailedPermanent, None, None, Some(AuthDead))
  }

  lemma RecordEnds(t: Tables, job: JobId, attemptNo: nat, r: ResultRecord, stamp: Time)
    requires job < |t.jobs| && t.jobs[job].status == Sending
    ensures Ends(t, RecordResult(t, job, attemptNo, r, stamp).0, job, attemptNo, stamp, r.newStatus, r.nextAttemptAt,
                 r.floodWaitUntil, r.errorClass)
    ensures r.newStatus != Succeeded || t.jobs[job].kindText != "send" || r.targetMessageId.None? ==>
              RecordResult(t, job, attemptNo, r, stamp).0.mapped == t.mapped
  {}

  lemma RetryRecorded(t: Tables, job: JobId, attemptNo: nat, error: ErrorClass, until: Option<Time>,
                      policy: RetryPolicy, now: Time, draw: real, stamp: Time)
    requires job < |t.jobs| && t.jobs[job].status == Sending && ProperPolicy(policy, draw)
    requires error == FloodWait ==> until.None?
    ensures var result := DeliveryResult(Retryable, [], Some(error), until);
            var after := RecordResult(t, job, attemptNo, RecordFor(result, attemptNo, policy, now, draw), stamp).0;
            RetriesOrDies(t, after, job, attemptNo, policy, now, stamp, error)
  {
    var record := RecordFor(DeliveryResult(Retryable, [], Some(error), until), attemptNo, policy, now, draw);
    BackoffBounds(policy, attemptNo, now, draw);
    RecordEnds(t, job, attemptNo, record, stamp);
    if attemptNo < policy.maxAttempts {
      assert WithinBackoff(policy, now, record.nextAttemptAt.value);
    }
  }

  lemma DeliveryRecorded(t: Tables, job: JobId, attemptNo: nat, ids: seq<int>, policy: RetryPolicy, now: Time,
                         draw: real, stamp: Time)
    requires job < |t.jobs| && t.jobs[job].status == Sending
    ensures var record := RecordFor(DeliveryResult(Done, ids, None, None), attemptNo, policy, now, draw);
            var after := RecordResult(t, job, attemptNo, record, stamp).0;
            Ends(t, after, job, attemptNo, stamp, Succeeded, None, None, None) && MapsSent(t, after, job, ids)
  {
    RecordEnds(t, job, attemptNo, RecordFor(DeliveryResult(Done, ids, None, None), attemptNo, policy, now, draw),
               stamp);
  }

  lemma ErrorRecorded(t: Tables, job: JobId, attemptNo: nat, kind: TransportErrorKind, until: Option<Time>,
                      policy: RetryPolicy, now: Time, draw: real, stamp: Time)
    requires job < |t.jobs| && t.jobs[job].status == Sending && ProperPolicy(policy, draw)
    ensures var result := DeliveryResult(StatusOf(kind), [], Some(ErrorClassOf(kind)), until);
            var after := RecordResult(t, job, attemptNo, RecordFor(result, attemptNo, policy, now, draw), stamp).0;
            Stored(t, after, job, attemptNo, TransportError(kind, until), policy, now, stamp)
  {
    var result := DeliveryResult(StatusOf(kind), [], Some(ErrorClassOf(kind)), until);
    RecordEnds(t, job, attemptNo, RecordFor(result, attemptNo, policy, now, draw), stamp);
    if kind == TransientError || (kind == FloodWaitError && until.None?) {
      RetryRecorded(t, job, attemptNo, ErrorClassOf(kind), until, policy, now, draw, stamp);
    }
  }

  /** Recording an execution that called the transport, for a job in sending: row, attempt and map say what the
      transport answered. */
  lemma {:induction false} OutcomeIsStored(t: Tables, job: JobId, attemptNo: nat, kind: PlanKind, targets: seq<int>,
                                           outcome: TransportOutcome, policy: RetryPolicy, now: Time, draw: real,
                                           stamp: Time)
    requires job < |t.jobs| && t.jobs[job].status == Sending && KindOf(t.jobs[job].kindText) == Some(kind)
    requires (kind == PlanKind.Send || targets != []) && ProperPolicy(policy, draw)
    ensures Execute(kind, Allow, targets, outcome).1
    ensures var result := Execute(kind, Allow, targets, outcome).0;
            var after := RecordResult(t, job, attemptNo, RecordFor(result, attemptNo, policy, now, draw), stamp).0;
            Stored(t, after, job, attemptNo, outcome, policy, now, stamp)
  {
    match outcome
    case Delivered(ids) =>
      DeliveryRecorded(t, job, attemptNo, if kind == PlanKind.Send then ids else targets, policy, now, draw, stamp);
    case TransportError(k, until) => ErrorRecorded(t, job, attemptNo, k, until, policy, now, draw, stamp);
    case Raised =>
      var result := DeliveryResult(Unknown, [], Some(ResultUnknown), None);
      RecordEnds(t, job, attemptNo, RecordFor(result, attemptNo, policy, now, draw), stamp);
  }

  // ---------- the claim ----------

  /** A claim that wins leases the job under the next attempt number, opens that attempt and changes nothing else. */
  lemma WonClaimOpens(t: Tables, c: Candidate, generation: int, now: Time)
    requires InRange(c, t.jobs) && TryClaim(t, c, generation, now).1.Won?
    ensures var (after, outcome) := TryClaim(t, c, generation, now);
            var a := (c.job, c.attemptCount + 1);
            && outcome == Won(c.job, c.attemptCount + 1)
            && t.jobs[c.job].status == Ready && a !in t.attempts
            && after.inbox == t.inbox && after.mapped == t.mapped && |after.jobs| == |t.jobs|
            && (forall j :: 0 <= j < |t.jobs| && j != c.job ==> after.jobs[j] == t.jobs[j])
            && after.jobs[c.job] == t.jobs[c.job].(status := Leased, attemptCount := c.attemptCount + 1,
                                                   updatedAt := now)
            && after.attempts.Keys == t.attempts.Keys + {a}
            && (forall b :: b in t.attempts ==> after.attempts[b] == t.attempts[b])
            && after.attempts[a] == Attempt(generation, now, None, None, None)
  {}

  // ---------- a claimed job, from the gate on ----------

  /** A job that has been claimed and whose kind is known. */
  predicate Held(t: Tables, job: JobId) {
    job < |t.jobs| && t.jobs[job].status == Leased && KindOf(t.jobs[job].kindText).Some?
  }

  /** Refused at the gate: no call is made, and the job goes back or is blocked; a lost lease halts the runner. */
  lemma {:induction false} GateRefuses(t: Tables, job: JobId, attemptNo: nat, policy: RetryPolicy, turn: Turn)
    requires Held(t, job) && turn.decision != Allow && ProperPolicy(policy, turn.draw)
    ensures var r := SendClaimed(t, job, attemptNo, policy, turn);
            && r.calls == [] && r.acted == ActedOn(job)
            && r.tables.attempts == t.attempts && r.tables.mapped == t.mapped
            && (r.halted == if turn.decision == BlockedLease then Some(LeaseLost) else None)
            && (turn.decision == BlockedLease ==> JobEnds(t, r.tables, job, turn.gateStamp, Ready, None, None, None))
            && (turn.decision == BlockedRate && attemptNo >= policy.maxAttempts ==>
                  JobEnds(t, r.tables, job, turn.gateStamp, Ready, None, None, None))
            && (turn.decision == BlockedRate && attemptNo < policy.maxAttempts ==>
                  exists until :: WithinBackoff(policy, turn.retryNow, until)
                                  && JobEnds(t, r.tables, job, turn.gateStamp, Ready, Some(until), None, None))
            && (turn.decision in {BlockedPolicy, BlockedApproval, BlockedAccount} ==>
                  JobEnds(t, r.tables, job, turn.gateStamp, Blocked, None, None, None))
  {
    if turn.decision == BlockedRate && attemptNo < policy.maxAttempts {
      BackoffBounds(policy, attemptNo, turn.retryNow, turn.draw);
      var until := NextAttemptAt(policy, attemptNo, turn.retryNow, turn.draw).value;
      assert WithinBackoff(policy, turn.retryNow, until);
      assert JobEnds(t, SendClaimed(t, job, attemptNo, policy, turn).tables, job, turn.gateStamp, Ready, Some(until),
                     None, None);
    }
  }

  lemma SendingEnds(t: Tables, job: JobId, attemptNo: nat, gateStamp: Time, r: ResultRecord, stamp: Time)
    requires job < |t.jobs| && t.jobs[job].status == Leased
    ensures var sending := Transition(t, job, Leased, Sending, None, gateStamp).0;
            && job < |sending.jobs| && sending.jobs[job].status == Sending
            && Ends(t, RecordResult(sending, job, attemptNo, r, stamp).0, job, attemptNo, stamp, r.newStatus,
                    r.nextAttemptAt, r.floodWaitUntil, r.errorClass)
            && sending.mapped == t.mapped && sending.jobs[job].kindText == t.jobs[job].kindText
  {
    RecordEnds(Transition(t, job, Leased, Sending, None, gateStamp).0, job, attemptNo, r, stamp);
  }

  /** The entry into sending in between leaves no trace. */
  lemma StoredFromLeased(t: Tables, after: Tables, job: JobId, attemptNo: nat, outcome: TransportOutcome,
                         policy: RetryPolicy, now: Time, gateStamp: Time, stamp: Time)
    requires job < |t.jobs| && t.jobs[job].status == Leased
    requires var sending := Transition(t, job, Leased, Sending, None, gateStamp).0;
             job < |sending.jobs| && Stored(sending, after, job, attemptNo, outcome, policy, now, stamp)
    ensures Stored(t, after, job, attemptNo, outcome, policy, now, stamp)
  {
    var sending := Transition(t, job, Leased, Sending, None, gateStamp).0;
    forall status, next, flood, error | Ends(sending, after, job, attemptNo, stamp, status, next, flood, error)
      ensures Ends(t, after, job, attemptNo, stamp, status, next, flood, error)
    {
    }
  }

  /** Allowed at the gate and again before the call: exactly one call is made, its answer is stored, and the runner
      halts exactly when the account's authorization is dead. */
  lemma {:induction false} AllowedIsSent(t: Tables, job: JobId, attemptNo: nat, kind: PlanKind, policy: RetryPolicy,
                                         turn: Turn)
    requires Held(t, job) && KindOf(t.jobs[job].kindText) == Some(kind) && ProperPolicy(policy, turn.recordDraw)
    requires turn.decision == Allow && turn.sendDecision == Allow && (kind == PlanKind.Send || turn.targets != [])
    ensures var r := SendClaimed(t, job, attemptNo, policy, turn);
            && r.calls == [Call(job, attemptNo)] && r.acted == ActedOn(job)
            && (r.halted == if turn.outcome.TransportError? && turn.outcome.kind == AuthError
                            then Some(WorkerError(AuthDead)) else None)
            && Stored(t, r.tables, job, attemptNo, turn.outcome, policy, turn.recordNow, turn.recordStamp)
  {
    var sending := Transition(t, job, Leased, Sending, None, turn.gateStamp).0;
    OutcomeIsStored(sending, job, attemptNo, kind, turn.targets, turn.outcome, policy, turn.recordNow, turn.recordDraw,
                    turn.recordStamp);
    StoredFromLeased(t, SendClaimed(t, job, attemptNo, policy, turn).tables, job, attemptNo, turn.outcome, policy,
                     turn.recordNow, turn.gateStamp, turn.recordStamp);
  }

  /** Allowed at the gate but refused before the call, or with no message to edit or delete: no call is made. */
  lemma {:induction false} AllowedButNotSent(t: Tables, job: JobId, attemptNo: nat, kind: PlanKind,
                                             policy: RetryPolicy, turn: Turn)
    requires Held(t, job) && KindOf(t.jobs[job].kindText) == Some(kind) && turn.decision == Allow
    requires turn.sendDecision != Allow || (kind != PlanKind.Send && turn.targets == [])
    ensures var r := SendClaimed(t, job, attemptNo, policy, turn);
            var stamp := turn.recordStamp;
            && r.calls == [] && r.acted == ActedOn(job) && r.halted == None && r.tables.mapped == t.mapped
            && if turn.sendDecision != Allow then Ends(t, r.tables, job, attemptNo, stamp, Blocked, None, None, None)
               else if kind == EditTarget
               then Ends(t, r.tables, job, attemptNo, stamp, FailedPermanent, None, None, Some(ContentInvalid))
               else Ends(t, r.tables, job, attemptNo, stamp, Succeeded, None, None, None)
  {
    var result := Execute(kind, turn.sendDecision, turn.targets, turn.outcome).0;
    var record := RecordFor(result, attemptNo, policy, turn.recordNow, turn.recordDraw);
    SendingEnds(t, job, attemptNo, turn.gateStamp, record, turn.recordStamp);
  }

  /** A job whose kind nobody knows stays as the claim left it. */
  lemma UnknownKindIsLeft(t: Tables, job: JobId, attemptNo: nat, policy: RetryPolicy, turn: Turn)
    requires job < |t.jobs| && KindOf(t.jobs[job].kindText).None?
    ensures SendClaimed(t, job, attemptNo, policy, turn) == Report(t, RaisedError, None, [])
  {}

  // ---------- the round ----------

  /** Nothing of the account is due: there is no ready job whose waits are over. */
  predicate NothingLeft(t: Tables, account: string, now: Time) {
    forall j :: 0 <= j < |t.jobs| ==> !Claimable(t.jobs[j], account, now)
  }

  lemma ClaimFindsWork(t: Tables, account: string, generation: int, now: Time)
    requires Sane(t)
    ensures var (claimed, outcome) := ClaimFirst(t, Candidates(t.jobs, account, |t.jobs|), generation, now);
            && Sane(claimed) && !outcome.Conflict? && |claimed.jobs| == |t.jobs|
            && (outcome.Skipped? <==> NothingLeft(t, account, now)) && (outcome.Skipped? ==> claimed == t)
            && (outcome.Won? ==> outcome.job < |t.jobs| && Claimable(t.jobs[outcome.job], account, now))
  {
    FreshRead(t.jobs, account);
    FreshClaimNeverAborts(t, Candidates(t.jobs, account, |t.jobs|), account, generation, now);
    ClaimKeepsSize(t, Candidates(t.jobs, account, |t.jobs|), generation, now);
  }

  lemma ClaimedActs(t: Tables, job: JobId, attemptNo: nat, policy: RetryPolicy, turn: Turn)
    requires Sane(t) && job < |t.jobs|
    ensures var r := SendClaimed(t, job, attemptNo, policy, turn);
            Sane(r.tables) && (r.acted == ActedOn(job) || r.acted == RaisedError)
  {
    SendClaimedKeeps(t, job, attemptNo, policy, turn);
  }

  /** A turn finds nothing due exactly when, after the stale reclaim, nothing is. */
  lemma {:induction false} TurnFindsWork(t: Tables, account: string, generation: int, policy: RetryPolicy, turn: Turn)
    requires Sane(t)
    ensures var r := SendOnce(t, account, generation, policy, turn);
            var swept := ReclaimStale(t, account, turn.reclaimNow, turn.reclaimStamp);
            && Sane(r.tables)
            && (r.acted == NothingDue <==> NothingLeft(swept, account, turn.claimNow))
            && (r.acted == NothingDue ==> r.tables == swept && r.halted.None? && r.calls == [])
            && (r.acted.ActedOn? ==>
                  r.acted.job < |swept.jobs| && Claimable(swept.jobs[r.acted.job], account, turn.claimNow))
            && r.acted != OutOfTurns
  {
    var swept := ReclaimStale(t, account, turn.reclaimNow, turn.reclaimStamp);
    ReclaimKeeps(t, account, turn.reclaimNow, turn.reclaimStamp);
    ClaimFindsWork(swept, account, generation, turn.claimNow);
    var (claimed, outcome) := ClaimFirst(swept, Candidates(swept.jobs, account, |swept.jobs|), generation,
                                         turn.claimNow);
    if outcome.Won? {
      ClaimedActs(claimed, outcome.job, outcome.attemptNo, policy, turn);
    }
  }

  /** A round of sending ends only because nothing is due, an error was raised, the runner halted or its turns are used
      up - never after a send that went well. */
  lemma {:induction false} RoundEnds(t: Tables, account: string, generation: int, policy: RetryPolicy, turns: seq<Turn>)
    requires Sane(t)
    ensures var r := SendAll(t, account, generation, policy, turns);
            && (r.acted.ActedOn? ==> r.halted.Some?)
            && (r.acted == NothingDue ==>
                  exists n :: 0 <= n < |turns| && NothingLeft(r.tables, account, turns[n].claimNow))
    decreases |turns|
  {
    if turns != [] {
      var first := SendOnce(t, account, generation, policy, turns[0]);
      var r := SendAll(t, account, generation, policy, turns);
      TurnFindsWork(t, account, generation, policy, turns[0]);
      if first.acted.ActedOn? && first.halted.None? {
        RoundEnds(first.tables, account, generation, policy, turns[1..]);
        if r.acted == NothingDue {
          var n :| 0 <= n < |turns[1..]| && NothingLeft(r.tables, account, turns[1..][n].claimNow);
          assert turns[n + 1] == turns[1..][n];
        }
      } else if first.acted == NothingDue {
        assert NothingLeft(first.tables, account, turns[0].claimNow);
      }
    }
  }
}
