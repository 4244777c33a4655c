/**
  The shared `RemediationPlan` row and every write the worker, the reconciler and the
  governance routes make to it. A guarded write returns the row count that the code
  tests; the whole protocol synchronises on nothing else.
*/
module PlanRow {
  import opened Wrappers
  import opened JsonText
  import opened IsoTime
  import PF = Preflight

  datatype Outcome =
    | Missing // a historical row without an outcome
    | NotAttempted
    | Attempted
    | OutcomeUnknown
    | ManualReviewRequired
    | ConfirmedSucceeded
    | ConfirmedFailed

  datatype Status = Unset | NotRequired | Pending | InProgress | Resolved | ManualReview | FailedRetryable

  datatype Lifecycle =
    | Recommended | Simulated | PendingApproval | Approved | Queued | Executing
    | Succeeded | Failed | Blocked | RolledBack | RollbackAvailable

  datatype Row = Row(
    plan: PF.Plan,
    lifecycle: Lifecycle,
    approvalGranted: bool,
    outcome: Outcome,
    status: Status,
    attempts: nat,
    attemptedAt: Option<int>,
    confirmedAt: Option<int>,
    leaseAt: Option<int>,
    lastAt: Option<int>,
    nextAt: Option<int>,
    providerId: Option<Text>,
    awsId: Option<Text>)

  /** The idempotency key is one of the columns an approval is bound to, and so is the expiry. */
  function KeyOf(r: Row): Option<Text> {
    r.plan.input.idempotencyKey
  }

  function ExpiryOf(r: Row): Option<Instant> {
    r.plan.input.approvalExpiresAt
  }

  /** The row with another idempotency key. */
  function Keyed(r: Row, key: Text): Row {
    r.(plan := r.plan.(input := r.plan.input.(idempotencyKey := Some(key))))
  }

  /** The row after a guarded write, and how many rows the guard matched. */
  datatype Write = Write(row: Row, count: nat)

  function UpdateMany(row: Row, guard: bool, updated: Row): Write {
    if guard then Write(updated, 1) else Write(row, 0)
  }

  // ----- the transition table -----

  /** `MUTATION_OUTCOME_TRANSITIONS` */
  predicate InTable(from: Outcome, to: Outcome) {
    match from
    case Missing => false
    case NotAttempted => to == NotAttempted || to == Attempted
    case Attempted => to == Attempted || to == ConfirmedSucceeded || to == ConfirmedFailed || to == OutcomeUnknown
    case ConfirmedSucceeded => to == ConfirmedSucceeded
    case ConfirmedFailed => to == ConfirmedFailed
    case OutcomeUnknown =>
      to == OutcomeUnknown || to == ConfirmedSucceeded || to == ConfirmedFailed || to == ManualReviewRequired
    case ManualReviewRequired => to == ManualReviewRequired || to == ConfirmedSucceeded || to == ConfirmedFailed
  }

  /** A path through the table. */
  ghost predicate TablePath(path: seq<Outcome>) {
    path != [] && forall i | 0 <= i < |path| - 1 :: InTable(path[i], path[i + 1])
  }

  /** The reflexive-transitive closure of the table. */
  ghost predicate InClosure(from: Outcome, to: Outcome) {
    exists path :: TablePath(path) && path[0] == from && path[|path| - 1] == to
  }

  function Rank(o: Outcome): int {
    match o
    case Missing => -1
    case NotAttempted => 0
    case Attempted => 1
    case OutcomeUnknown => 2
    case ManualReviewRequired => 3
    case ConfirmedSucceeded => 4
    case ConfirmedFailed => 4
  }

  predicate IsUnresolved(o: Outcome) {
    o == Attempted || o == OutcomeUnknown
  }

  predicate IsConfirmed(o: Outcome) {
    o == ConfirmedSucceeded || o == ConfirmedFailed
  }

  // ----- the worker's writes -----

  predicate Claimable(l: Lifecycle) {
    l == Queued || l == Approved
  }

  /** The lifecycles under which a row already answers for its idempotency key. */
  predicate Settled(l: Lifecycle) {
    l == Succeeded || l == Failed || l == Blocked || l == RolledBack || l == Executing || l == RollbackAvailable
  }

  function ClaimExecution(r: Row, key: Text, now: int): Write {
    UpdateMany(r,
               && KeyOf(r) == Some(key) && Claimable(r.lifecycle) && r.approvalGranted
                   && r.outcome == NotAttempted
               && (ExpiryOf(r).None? || ExpiryOf(r).value > now),
               r.(lifecycle := Executing, leaseAt := Some(now)))
  }

  /** The unguarded write that ends a simulated execution. */
  function CompleteSimulation(r: Row): Row {
    r.(lifecycle := Succeeded, outcome := NotAttempted, status := NotRequired)
  }

  function FailPlan(r: Row): Row {
    r.(lifecycle := Failed)
  }

  function BlockPlan(r: Row): Row {
    r.(lifecycle := Blocked)
  }

  /** The write-ahead barrier: nothing is sent before this has matched the row. */
  function RecordAttempt(r: Row, now: int): Write {
    UpdateMany(r, r.lifecycle == Executing && r.outcome == NotAttempted,
               r.(outcome := Attempted, attemptedAt := Some(now), status := Pending))
  }

  function RecordRequestId(r: Row, id: Text): Write {
    UpdateMany(r, r.outcome == Attempted && r.providerId.None? && r.awsId.None?,
               r.(providerId := Some(id), awsId := Some(id)))
  }

  function Confirm(r: Row, sent: bool, now: int): Write {
    UpdateMany(r, r.outcome == if sent then Attempted else NotAttempted,
               r.(lifecycle := RollbackAvailable,
                  outcome := if sent then ConfirmedSucceeded else NotAttempted,
                  confirmedAt := if sent then Some(now) else None,
                  status := if sent then Resolved else NotRequired,
                  nextAt := None))
  }

  /** The first text that is there. */
  function Either(a: Option<Text>, b: Option<Text>): Option<Text> {
    if a.Some? then a else b
  }

  /** `persistMutationOutcome`: the row is re-read and rewritten in one transaction. */
  function PersistOutcome(r: Row, target: Outcome, candidate: Option<Text>, now: int): Write {
    var existing := Either(r.providerId, r.awsId);
    var conflict := candidate.Some? && existing.Some? && candidate != existing;
    var id := Either(existing, candidate);
    var uncertain := target == OutcomeUnknown;
    UpdateMany(r, r.outcome == Attempted,
               r.(lifecycle := Failed,
                  outcome := target,
                  confirmedAt := if uncertain then None else Some(now),
                  providerId := if r.providerId.None? && !conflict then id else r.providerId,
                  awsId := if r.awsId.None? && !conflict then id else r.awsId,
                  status := if uncertain then Pending else Resolved,
                  nextAt := if uncertain then Some(now) else None))
  }

  /** `ensureMutationReconciliationScheduled` */
  function ScheduleReconciliation(r: Row, seen: Row, now: int): Row {
    if !IsUnresolved(seen.outcome) then r
    else if seen.status == Pending || seen.status == InProgress || seen.status == FailedRetryable then r
    else UpdateMany(r, r.outcome == seen.outcome && r.status == seen.status,
                    r.(status := Pending, nextAt := Some(now))).row
  }

  // ----- the reconciler's query and writes -----

  predicate AtMost(t: Option<int>, bound: int) {
    t.Some? && t.value <= bound
  }

  predicate Due(r: Row, now: int) {
    r.status == Unset || r.status == Pending || (r.status == FailedRetryable && AtMost(r.nextAt, now))
  }

  /** The `where` clause of the candidate query. */
  predicate Candidate(r: Row, now: int, staleMs: int, maxAttempts: int) {
    var staleBefore := now - staleMs;
    && (|| (IsUnresolved(r.outcome)
            && ((AtMost(r.attemptedAt, staleBefore) && Due(r, now))
                || (r.status == InProgress && AtMost(r.lastAt, staleBefore))))
        || (r.lifecycle == Executing && AtMost(r.leaseAt, staleBefore) && r.outcome == NotAttempted && Due(r, now)))
    && r.attempts < maxAttempts
  }

  predicate StaleInProgress(seen: Row, now: int, staleMs: int) {
    seen.status == InProgress && AtMost(seen.lastAt, now - staleMs) && IsUnresolved(seen.outcome)
  }

  function ClaimReconciliation(r: Row, seen: Row, now: int, staleMs: int): Write {
    UpdateMany(r,
               && r.outcome == seen.outcome && r.attempts == seen.attempts && r.status == seen.status
               && (if StaleInProgress(seen, now, staleMs) then r.lastAt == seen.lastAt
                   else r.status == Unset || r.status == Pending || r.status == FailedRetryable),
               r.(status := InProgress, attempts := r.attempts + 1, lastAt := Some(now), nextAt := None))
  }

  /** The fence every later write of the claimant is guarded by. */
  predicate StillClaimed(r: Row, seen: Row) {
    r.outcome == seen.outcome && r.status == InProgress && r.attempts == seen.attempts + 1
  }

  function Power(n: nat): nat {
    if n == 0 then 1 else 2 * Power(n - 1)
  }

  function RetryDelay(attempt: nat): int {
    if 60_000 * Power(attempt) <= 900_000 then 60_000 * Power(attempt) else 900_000
  }

  function RetryLater(r: Row, seen: Row, now: int): Write {
    UpdateMany(r, StillClaimed(r, seen),
               r.(status := FailedRetryable, nextAt := Some(now + RetryDelay(seen.attempts + 1))))
  }

  /** `persistResolution`, for the two outcomes it is called with. */
  function Resolve(r: Row, seen: Row, target: Outcome, now: int): Write {
    UpdateMany(r, StillClaimed(r, seen),
               r.(outcome := target, status := Resolved, lastAt := Some(now), nextAt := None,
                  lifecycle := if target == NotAttempted then Failed else RollbackAvailable,
                  confirmedAt := if target == NotAttempted then r.confirmedAt else Some(now)))
  }

  /** `persistManualReview` */
  function Review(r: Row, seen: Row, now: int): Write {
    UpdateMany(r, StillClaimed(r, seen),
               r.(outcome := ManualReviewRequired, status := ManualReview, lifecycle := Failed,
                  lastAt := Some(now), nextAt := None))
  }

  function Distance(a: int, b: int): nat {
    if a < b then b - a else a - b
  }

  /** `Math.min(Math.max(n, 1), 10)`: the nearest number from one to ten. */
  function Clamp(n: int): (r: int)
    ensures 1 <= r <= 10 && forall m | 1 <= m <= 10 :: Distance(n, r) <= Distance(n, m)
  {
    if n < 1 then 1 else if n > 10 then 10 else n
  }

  // ----- the governance routes' writes -----

  /** Whether an approval has ever been bound to the plan; no route unbinds it. */
  predicate Bound(r: Row) {
    r.plan.approvedByRequestId.Some?
  }

  /**
    The writes of the routes around execution. Those the routes guard keep their
    guards; the others are allowed at any time, as their readings may be stale.
  */
  datatype OutsideWrite =
    | RequestApproval
    | Decide(approve: bool, plan: PF.Plan)
    | Queue(key: Text)
    | EnqueueFailed(key: Text)
    | BlockRoute
    | SetApproval(granted: bool)
    | EditPlan(plan: PF.Plan)
    | Resimulate(blocked: bool, plan: PF.Plan, key: Text, expiresAt: Instant)

  /** The plan that a simulation writes: whatever it is, under this key and with this expiry. */
  function Prepared(plan: PF.Plan, key: Text, expiresAt: Instant): PF.Plan {
    plan.(input := plan.input.(idempotencyKey := Some(key), approvalExpiresAt := Some(expiresAt)))
  }

  function Outside(r: Row, w: OutsideWrite): Row {
    match w
    case RequestApproval => r.(lifecycle := PendingApproval, approvalGranted := false)
    case Decide(approve, plan) =>
      if r.lifecycle == PendingApproval && !Bound(r) then
        if approve && plan.approvedByRequestId.Some?
            then r.(plan := plan, lifecycle := Approved, approvalGranted := true)
        else r.(lifecycle := Blocked, approvalGranted := false)
      else r
    case Queue(key) =>
      if r.lifecycle == Approved && r.approvalGranted && r.outcome == NotAttempted then
        Keyed(r, key).(lifecycle := Queued)
      else r
    case EnqueueFailed(key) =>
      if Claimable(r.lifecycle) then Keyed(r, key).(lifecycle := Failed, outcome := NotAttempted) else r
    case BlockRoute => r.(lifecycle := Blocked)
    case SetApproval(granted) => r.(approvalGranted := granted)
    case EditPlan(plan) => if plan.approvedByRequestId == r.plan.approvedByRequestId then r.(plan := plan) else r
    case Resimulate(blocked, plan, key, expiresAt) =>
      if plan.approvedByRequestId == r.plan.approvedByRequestId then
        r.(plan := Prepared(plan, key, expiresAt), lifecycle := if blocked then Blocked else Simulated,
           approvalGranted := false, outcome := NotAttempted, status := NotRequired, attempts := 0,
           attemptedAt := None, confirmedAt := None, providerId := None, lastAt := None, nextAt := None,
           leaseAt := None)
      else r
  }
}
