/** The delivery job state machine, the error taxonomy and one execution of a plan
    (runtime/delivery/model.py, runtime/delivery/executor.py and the outcome mapping of runtime/worker/runner.py). */
module JobModel {
  import opened Text
  import opened Planner

  /** Seconds. */
  type Time = real

  datatype JobStatus =
    | Pending | WaitingApproval | Ready | Leased | Sending | Succeeded | RetryWait | Blocked
    | FailedPermanent | DeadLetter | Uncertain | ReconciledSucceeded | ConfirmedNotSent
    | ManualReview | Cancelled | Expired | Superseded

  predicate Terminal(s: JobStatus) {
    s in {Succeeded, ReconciledSucceeded, FailedPermanent, DeadLetter, ManualReview, Cancelled, Expired, Superseded}
  }

  /** The legal edges. */
  function EdgesFrom(s: JobStatus): set<JobStatus> {
    match s
    case Pending => {WaitingApproval, Ready, Cancelled, Expired, Superseded}
    case WaitingApproval => {Ready, Cancelled, Expired, Superseded}
    case Ready => {Leased, Blocked, Cancelled, Expired, Superseded}
    case Leased => {Sending, Ready, Blocked, Cancelled, Expired, Superseded}
    case Sending => {Succeeded, RetryWait, Blocked, FailedPermanent, DeadLetter, Uncertain, Superseded}
    case RetryWait => {Ready, Blocked, DeadLetter, Cancelled, Expired, Superseded}
    case Blocked => {Ready, Cancelled, Expired, Superseded}
    case Uncertain => {ReconciledSucceeded, ConfirmedNotSent, ManualReview, Cancelled}
    case ConfirmedNotSent => {Ready, Cancelled, Expired, Superseded}
    case _ => {}
  }

  predicate CanTransition(src: JobStatus, dst: JobStatus) {
    dst in EdgesFrom(src)
  }

  /** Terminal is exactly: no way out. */
  lemma TerminalHasNoEdges(s: JobStatus)
    ensures Terminal(s) <==> forall dst :: !CanTransition(s, dst)
  {
    match s
    case Pending => assert CanTransition(s, Ready);
    case WaitingApproval => assert CanTransition(s, Ready);
    case Ready => assert CanTransition(s, Leased);
    case Leased => assert CanTransition(s, Ready);
    case Sending => assert CanTransition(s, Succeeded);
    case RetryWait => assert CanTransition(s, Ready);
    case Blocked => assert CanTransition(s, Ready);
    case Uncertain => assert CanTransition(s, ManualReview);
    case ConfirmedNotSent => assert CanTransition(s, Ready);
    case _ =>
  }

  /** The edges read backwards: a job is sent only after it was leased, leased only when ready, and what a send led to
      is reached from sending alone; an uncertain job comes back only through a confirmation that nothing was sent. */
  lemma WaysIn(src: JobStatus)
    ensures !CanTransition(src, Pending)
    ensures CanTransition(src, WaitingApproval) <==> src == Pending
    ensures CanTransition(src, Leased) <==> src == Ready
    ensures CanTransition(src, Sending) <==> src == Leased
    ensures forall dst :: dst in {Succeeded, RetryWait, FailedPermanent, Uncertain} ==>
              (CanTransition(src, dst) <==> src == Sending)
    ensures CanTransition(src, DeadLetter) <==> src in {Sending, RetryWait}
    ensures forall dst :: dst in {ReconciledSucceeded, ConfirmedNotSent, ManualReview} ==>
              (CanTransition(src, dst) <==> src == Uncertain)
    ensures CanTransition(src, Blocked) <==> src in {Ready, Leased, Sending, RetryWait}
    ensures CanTransition(src, Ready)
       <==> src in {Pending, WaitingApproval, Leased, RetryWait, Blocked, ConfirmedNotSent}
    ensures CanTransition(src, Cancelled) <==> !Terminal(src) && src != Sending
    ensures CanTransition(src, Expired) <==> !Terminal(src) && src !in {Sending, Uncertain}
    ensures CanTransition(src, Superseded) <==> !Terminal(src) && src != Uncertain
  {}

  datatype ErrorClass =
    | FloodWait | Transient | ResultUnknown | AuthDead | PermissionBlocked | ContentInvalid | StorageDown | CacheDown

  datatype ErrorAction = ErrorAction(
    nextStatus: Option<JobStatus>, workerHalts: bool, retryable: bool, floodWaitUntil: Option<Time>)

  function ClassifyError(err: ErrorClass, floodWaitUntil: Option<Time>): ErrorAction {
    match err
    case FloodWait => ErrorAction(Some(RetryWait), false, true, floodWaitUntil)
    case Transient => ErrorAction(Some(RetryWait), false, true, None)
    case ResultUnknown => ErrorAction(Some(Uncertain), false, false, None)
    case AuthDead => ErrorAction(None, true, false, None)
    case PermissionBlocked => ErrorAction(Some(Blocked), false, false, None)
    case ContentInvalid => ErrorAction(Some(FailedPermanent), false, false, None)
    case StorageDown => ErrorAction(None, true, false, None)
    case CacheDown => ErrorAction(Some(Blocked), true, false, None)
  }

  datatype RetryPolicy = RetryPolicy(maxAttempts: int, baseDelay: Time, maxDelay: Time, jitter: real)

  function Power2(n: nat): (p: real)
    ensures p >= 1.0
  {
    if n == 0 then 1.0 else 2.0 * Power2(n - 1)
  }

  function Backoff(policy: RetryPolicy, attemptNo: int): Time {
    var raw := policy.baseDelay * Power2(if attemptNo <= 1 then 0 else attemptNo - 1);
    if raw <= policy.maxDelay then raw else policy.maxDelay
  }

  /** `draw` is what rand.uniform(-jitter, jitter) returned. */
  function NextAttemptAt(policy: RetryPolicy, attemptNo: int, now: Time, draw: real): Option<Time> {
    if attemptNo >= policy.maxAttempts then None
    else Some(Delayed(now, Backoff(policy, attemptNo), draw))
  }

  function Delayed(now: Time, wait: Time, draw: real): Time {
    var delay := wait * (1.0 + draw);
    now + if delay >= 0.0 then delay else 0.0
  }

  /** Retries end exactly at maxAttempts, never lie in the past and are never put off beyond the jittered cap;
      the wait before jitter never shrinks from one attempt to the next. */
  lemma BackoffBounds(policy: RetryPolicy, attemptNo: int, now: Time, draw: real)
    requires 0.0 <= policy.baseDelay && 0.0 <= policy.maxDelay && -policy.jitter <= draw <= policy.jitter
    ensures NextAttemptAt(policy, attemptNo, now, draw).None? <==> attemptNo >= policy.maxAttempts
    ensures attemptNo < policy.maxAttempts ==>
              now <= NextAttemptAt(policy, attemptNo, now, draw).value <= now + policy.maxDelay * (1.0 + policy.jitter)
    ensures 0.0 <= Backoff(policy, attemptNo) <= Backoff(policy, attemptNo + 1) <= policy.maxDelay
  {
    var n: nat := if attemptNo <= 1 then 0 else attemptNo - 1;
    var m: nat := if attemptNo + 1 <= 1 then 0 else attemptNo;
    var p, q := Power2(n), Power2(m);
    assert p <= q;
    Scale(policy.baseDelay, p, q);
    Scale(policy.baseDelay, 0.0, p);
    var delay := Backoff(policy, attemptNo);
    Scale(delay, 1.0 + draw, 1.0 + policy.jitter);
    Scale(1.0 + policy.jitter, delay, policy.maxDelay);
  }

  /** The wait is the base delay at first and doubles with every attempt, up to the maximum. */
  lemma {:induction false} BackoffDoubles(policy: RetryPolicy, attemptNo: int)
    requires 0.0 <= policy.baseDelay && 0.0 <= policy.maxDelay
    ensures attemptNo <= 1 ==>
              Backoff(policy, attemptNo)
              == if policy.baseDelay <= policy.maxDelay then policy.baseDelay else policy.maxDelay
    ensures attemptNo >= 1 ==>
              var doubled := 2.0 * Backoff(policy, attemptNo);
              Backoff(policy, attemptNo + 1) == if doubled <= policy.maxDelay then doubled else policy.maxDelay
  {
    if attemptNo >= 1 {
      var p := Power2(attemptNo - 1);
      assert Power2(attemptNo) == 2.0 * p;
      assert policy.baseDelay * (2.0 * p) == 2.0 * (policy.baseDelay * p);
    }
  }

  /** The jitter stretches the wait by a factor, and no wait is negative. */
  lemma {:induction false} JitterStretches(policy: RetryPolicy, attemptNo: int, now: Time, draw: real)
    requires 0.0 <= policy.baseDelay && 0.0 <= policy.maxDelay && attemptNo < policy.maxAttempts
    ensures var wait := Backoff(policy, attemptNo);
            NextAttemptAt(policy, attemptNo, now, draw)
            == Some(if draw >= -1.0 then now + wait + wait * draw else now)
  {
    Scale(policy.baseDelay, 0.0, Power2(if attemptNo <= 1 then 0 else attemptNo - 1));
    DelayStretches(now, Backoff(policy, attemptNo), draw);
  }

  lemma DelayStretches(now: Time, wait: Time, draw: real)
    requires wait >= 0.0
    ensures Delayed(now, wait, draw) == if draw >= -1.0 then now + wait + wait * draw else now
  {
    var delay := wait * (1.0 + draw);
    assert delay == wait + wait * draw;
    if draw >= -1.0 {
      Scale(wait, 0.0, 1.0 + draw);
    } else {
      Scale(wait, 1.0 + draw, 0.0);
    }
  }

  lemma Scale(k: real, x: real, y: real)
    requires 0.0 <= k && x <= y
    ensures k * x <= k * y && x * k <= y * k
  {}

  // ---------- one execution ----------

  datatype Decision = Allow | BlockedPolicy | BlockedApproval | BlockedAccount | BlockedLease | BlockedRate

  datatype TransportErrorKind =
    FloodWaitError | TransientError | UnknownError | PermissionError | ContentError | AuthError

  /** What the transport did when called; Raised is any exception other than TransportError. */
  datatype TransportOutcome =
    | Delivered(ids: seq<int>)
    | TransportError(kind: TransportErrorKind, floodWaitUntil: Option<Time>)
    | Raised

  datatype ResultStatus = Done | Retryable | Refused | Failed | Unknown | PolicyDenied

  datatype DeliveryResult = DeliveryResult(
    status: ResultStatus, targetMessageIds: seq<int>, errorClass: Option<ErrorClass>, floodWaitUntil: Option<Time>)

  function ErrorClassOf(kind: TransportErrorKind): ErrorClass {
    match kind
    case FloodWaitError => FloodWait
    case TransientError => Transient
    case UnknownError => ResultUnknown
    case PermissionError => PermissionBlocked
    case ContentError => ContentInvalid
    case AuthError => AuthDead
  }

  function StatusOf(kind: TransportErrorKind): ResultStatus {
    match kind
    case FloodWaitError => Retryable
    case TransientError => Retryable
    case UnknownError => Unknown
    case PermissionError => Refused
    case ContentError => Failed
    case AuthError => Failed
  }

  /** The result, and whether the transport was called. An exception that is no TransportError leaves
      `execute`; the runner records it as an unknown result. */
  function Execute(kind: PlanKind, decision: Decision, targets: seq<int>,
                   outcome: TransportOutcome): (DeliveryResult, bool) {
    if decision != Allow then (DeliveryResult(PolicyDenied, [], None, None), false)
    else if kind == EditTarget && targets == [] then (DeliveryResult(Failed, [], Some(ContentInvalid), None), false)
    else if kind in {DeleteTarget, Tombstone} && targets == [] then (DeliveryResult(Done, [], None, None), false)
    else
      match outcome
      case Delivered(ids) => (DeliveryResult(Done, if kind == Send then ids else targets, None, None), true)
      case TransportError(k, until) => (DeliveryResult(StatusOf(k), [], Some(ErrorClassOf(k)), until), true)
      case Raised => (DeliveryResult(Unknown, [], Some(ResultUnknown), None), true)
  }

  /** One call of record_result. */
  datatype ResultRecord = ResultRecord(
    newStatus: JobStatus,
    nextAttemptAt: Option<Time>,
    floodWaitUntil: Option<Time>,
    errorClass: Option<ErrorClass>,
    targetMessageId: Option<int>)

  function RecordFor(result: DeliveryResult, attemptNo: int, policy: RetryPolicy, now: Time, draw: real): ResultRecord {
    match result.status
    case Done =>
      ResultRecord(Succeeded, None, None, None,
                   if result.targetMessageIds == [] then None else Some(result.targetMessageIds[0]))
    case PolicyDenied => ResultRecord(Blocked, None, None, None, None)
    case Refused => ResultRecord(Blocked, None, None, result.errorClass, None)
    case Unknown => ResultRecord(Uncertain, None, None, Some(ResultUnknown), None)
    case Retryable =>
      var flood := if result.errorClass == Some(FloodWait) then result.floodWaitUntil else None;
      var next := NextAttemptAt(policy, attemptNo, now, draw);
      if flood.Some? then ResultRecord(RetryWait, None, flood, result.errorClass, None)
      else if next.None? then ResultRecord(DeadLetter, None, None, result.errorClass, None)
      else ResultRecord(RetryWait, next, None, result.errorClass, None)
    case Failed => ResultRecord(FailedPermanent, None, None, result.errorClass, None)
  }

  predicate Halts(result: DeliveryResult) {
    result.status == Failed && result.errorClass.Some? && result.errorClass.value in {AuthDead, StorageDown, CacheDown}
  }

  /** Whatever an execution returns, what is recorded is a legal edge out of `sending`. */
  lemma RecordIsLegalEdge(result: DeliveryResult, attemptNo: int, policy: RetryPolicy, now: Time, draw: real)
    ensures CanTransition(Sending, RecordFor(result, attemptNo, policy, now, draw).newStatus)
  {}

  /** The recorded status agrees with the error table exactly when the table names a status and,
      for a wait, there is still a wait to come; the exceptions are recorded as permanent failures or dead letters. */
  lemma RecordFollowsClassification(kind: PlanKind, targets: seq<int>, k: TransportErrorKind, until: Option<Time>,
                                    attemptNo: int, policy: RetryPolicy, now: Time, draw: real)
    requires kind == Send || targets != []
    ensures var (result, called) := Execute(kind, Allow, targets, TransportError(k, until));
            var action := ClassifyError(ErrorClassOf(k), until);
            var recorded := RecordFor(result, attemptNo, policy, now, draw);
            && called
            && (Some(recorded.newStatus) == action.nextStatus <==>
                  k != AuthError
                    && (action.retryable ==> action.floodWaitUntil.Some? || attemptNo < policy.maxAttempts))
            && (Halts(result) <==> action.workerHalts)
            && (k == AuthError ==> recorded.newStatus == FailedPermanent)
  {}

  /** A success without a transport call is a delete that had nothing to delete. */
  lemma SuccessWithoutCall(kind: PlanKind, decision: Decision, targets: seq<int>, outcome: TransportOutcome)
    ensures var (result, called) := Execute(kind, decision, targets, outcome);
            && (called ==> decision == Allow)
            && (result.status == Done && !called <==>
                decision == Allow && kind in {DeleteTarget, Tombstone} && targets == [])
            && (result.status in {Retryable, Refused, Unknown} ==> called)
  {}
}
