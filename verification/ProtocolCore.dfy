/**
  Safety over every run: whatever the interleaving, the crashes, the lost
  acknowledgements and the routes, re-simulation included, one plan is claimed at
  most once and sent at most once.
*/
module ProtocolCore {
  import opened Wrappers
  import opened JsonText
  import opened PlanRow
  import opened Protocol
  import PF = Preflight
  import GT = GovernedTagging

  // ----- the invariant -----

  /** What is left of the plan's single permission to execute. */
  function Permits(r: Row): nat {
    (if Claimable(r.lifecycle) then 1 else 0) + (if Bound(r) then 0 else 1)
  }

  /** The outcome and the reconciliation status go together. */
  ghost predicate Marked(r: Row, maxAttempts: int) {
    && (IsUnresolved(r.outcome) ==>
          r.attemptedAt.Some? && (r.status == Pending || r.status == InProgress || r.status == FailedRetryable))
    && (IsConfirmed(r.outcome) ==> r.status == Resolved)
    && (r.outcome == ManualReviewRequired <==> r.status == ManualReview)
    && (r.status == InProgress ==> r.lastAt.Some?)
    && (r.status == FailedRetryable ==> r.nextAt.Some? && r.attempts < maxAttempts)
    && r.attempts <= maxAttempts
  }

  /** What a confirmation rests on: a reading that shows every tag of the request sent, or of the approved target. */
  ghost predicate Observed(cfg: Config, e: Evidence, sends: seq<Request>, readings: seq<Reading>) {
    && e.reading in readings && GT.AllPresent(TagsOf(e), e.reading.tags)
    && match e
       case BySender(request, _) => request in sends
       case ByReconciler(plan, target, reading) =>
         cfg.approvedTarget(plan) == Some(target) && reading.instanceId == target.resourceId
  }

  /** A plan that passed the checks of a job with this key at this time: its key, its expiry, its approval, the gate. */
  predicate Checked(cfg: Config, plan: PF.Plan, key: Text, at: int) {
    && plan.input.idempotencyKey == Some(key)
    && (plan.input.approvalExpiresAt.Some? ==> at <= plan.input.approvalExpiresAt.value)
    && cfg.verified(plan, at) && cfg.gate(plan)
  }

  /** A request that passed every check on what its worker saw. */
  ghost predicate Cleared(cfg: Config, q: Request) {
    && Checked(cfg, q.plan, q.key, q.checkedAt)
    && cfg.decide(q.plan, q.before).Proceed?
    && cfg.decide(q.plan, q.before).tags == q.tags
    && cfg.decide(q.plan, q.before).target == q.target
    && !GT.AllPresent(q.tags, q.before.tags)
  }

  /** What the histories say of each other. */
  ghost predicate Recorded(
    cfg: Config, attempt: Option<Request>, sends: seq<Request>, confirmation: Option<Evidence>, readings: seq<Reading>)
  {
    && (attempt.Some? ==> Cleared(cfg, attempt.value))
    && (forall q | q in sends :: attempt == Some(q))
    && (confirmation.Some? ==> Observed(cfg, confirmation.value, sends, readings))
  }

  ghost predicate SharedInv(cfg: Config, sh: Shared) {
    && |sh.claimWins| + Permits(sh.row) <= 1
    && |sh.sends| <= |sh.barriers| <= |sh.claimWins|
    && (sh.barriers == [] ==> sh.row.outcome == NotAttempted)
    && (sh.attempt.Some? <==> sh.barriers != [])
    && Marked(sh.row, MaxAttempts(cfg))
    && (sh.row.outcome == ConfirmedSucceeded ==> sh.confirmation.Some?)
    && Recorded(cfg, sh.attempt, sh.sends, sh.confirmation, sh.readings)
  }

  /** A delivery that holds the claim and has not passed the barrier. */
  predicate HoldsClaim(a: Actor) {
    a.Simulate? || a.Inspect? || a.Barrier? || (a.ReadAfter? && !a.sent) || (a.ConfirmWrite? && !a.sent)
  }

  /** A delivery that has passed the barrier. */
  predicate PassedBarrier(a: Actor) {
    a.Send? || a.RecordId? || a.Recheck? || (a.ReadAfter? && a.sent) || (a.ConfirmWrite? && a.sent)
  }

  /** A snapshot the candidate query returned. */
  ghost predicate CandidateSnapshot(cfg: Config, r: Row) {
    Marked(r, MaxAttempts(cfg)) && (r.outcome == NotAttempted || IsUnresolved(r.outcome))
        && r.attempts < MaxAttempts(cfg)
  }

  ghost predicate ActorInv(cfg: Config, id: nat, a: Actor, sh: Shared) {
    && (HoldsClaim(a) ==> sh.claimWins == [id] && sh.barriers == [])
    && (PassedBarrier(a) ==> sh.claimWins == [id] && sh.barriers == [id] && sh.attempt == Some(a.request))
    && (PassedBarrier(a) ==> sh.sends == if a.Send? then [] else [a.request])
    && LocalInv(cfg, a, sh.readings)
  }

  /** What an actor knows that no other actor can change. */
  ghost predicate LocalInv(cfg: Config, a: Actor, readings: seq<Reading>) {
    match a
    case Claim(key, snapshot, at) => Checked(cfg, snapshot.plan, key, at)
    case Inspect(key, snapshot, at) => Checked(cfg, snapshot.plan, key, at)
    case Barrier(q) => Cleared(cfg, q)
    case Send(q) => Cleared(cfg, q)
    case ConfirmWrite(q, _, _, found) => found in readings && GT.AllPresent(q.tags, found.tags)
    case Persist(target, _) => target == OutcomeUnknown || target == ConfirmedFailed
    case Schedule(snapshot) => Marked(snapshot, MaxAttempts(cfg))
    case ClaimAttempt(snapshot, _) => CandidateSnapshot(cfg, snapshot)
    case Observe(snapshot, _, _) => CandidateSnapshot(cfg, snapshot) && IsUnresolved(snapshot.outcome)
    case Retry(snapshot, _, _) =>
      CandidateSnapshot(cfg, snapshot) && IsUnresolved(snapshot.outcome) && snapshot.attempts + 1 < MaxAttempts(cfg)
    case ResolveAs(snapshot, _, _, outcome, evidence) =>
      && CandidateSnapshot(cfg, snapshot)
      && (|| (outcome == NotAttempted && snapshot.outcome == NotAttempted && evidence.None?)
          || (outcome == ConfirmedSucceeded && IsUnresolved(snapshot.outcome) && evidence.Some?
              && evidence.value.ByReconciler? && evidence.value.plan == snapshot.plan
              && Observed(cfg, evidence.value, [], readings)))
    case ReviewBy(snapshot, _, _) => CandidateSnapshot(cfg, snapshot) && IsUnresolved(snapshot.outcome)
    case _ => true
  }

  ghost predicate Inv(cfg: Config, s: State) {
    && SharedInv(cfg, s.shared)
    && forall id | 0 <= id < |s.actors| :: ActorInv(cfg, id, s.actors[id], s.shared)
  }

  // ----- one more entry in a history -----

  lemma AttemptRecorded(cfg: Config, sh: Shared, q: Request)
    requires Recorded(cfg, sh.attempt, sh.sends, sh.confirmation, sh.readings) && sh.sends == []
    ensures Cleared(cfg, q) ==> Recorded(cfg, Some(q), sh.sends, sh.confirmation, sh.readings)
  {
    hide Cleared, GT.AllPresent;
  }

  lemma SendRecorded(cfg: Config, sh: Shared, q: Request)
    requires Recorded(cfg, sh.attempt, sh.sends, sh.confirmation, sh.readings) && sh.attempt == Some(q)
    ensures Recorded(cfg, sh.attempt, sh.sends + [q], sh.confirmation, sh.readings)
  {
    hide Cleared, GT.AllPresent;
  }

  lemma ReadingRecorded(cfg: Config, sh: Shared, r: Reading)
    requires Recorded(cfg, sh.attempt, sh.sends, sh.confirmation, sh.readings)
    ensures Recorded(cfg, sh.attempt, sh.sends, sh.confirmation, sh.readings + [r])
  {
    hide Cleared, GT.AllPresent;
  }

  lemma ConfirmationRecorded(cfg: Config, sh: Shared, e: Evidence)
    requires Recorded(cfg, sh.attempt, sh.sends, sh.confirmation, sh.readings)
    ensures Observed(cfg, e, sh.sends, sh.readings) ==> Recorded(cfg, sh.attempt, sh.sends, Some(e), sh.readings)
  {
    hide Cleared, Observed;
  }

  lemma ObservedBySends(cfg: Config, e: Evidence, sends: seq<Request>, readings: seq<Reading>)
    requires Observed(cfg, e, [], readings)
    ensures Observed(cfg, e, sends, readings)
  {
    hide GT.AllPresent;
  }

  lemma SenderObserved(cfg: Config, q: Request, r: Reading, sends: seq<Request>, readings: seq<Reading>)
    requires q in sends && r in readings && GT.AllPresent(q.tags, r.tags)
    ensures Observed(cfg, BySender(q, r), sends, readings)
  {}

  // ----- what the guarded writes leave in a marked row -----

  lemma ConfirmRow(r: Row, sent: bool, now: int, maxAttempts: int)
    requires Marked(r, maxAttempts)
    ensures var w := Confirm(r, sent, now);
            && (w.count == 0 || w.count == 1)
            && (w.count == 1 ==>
                  && Marked(w.row, maxAttempts) && Permits(w.row) <= Permits(r)
                  && w.row.outcome == if sent then ConfirmedSucceeded else NotAttempted)
  {}

  lemma ResolveRow(r: Row, seen: Row, target: Outcome, now: int, maxAttempts: int)
    requires Marked(r, maxAttempts) && seen.attempts < maxAttempts
    requires target == NotAttempted || target == ConfirmedSucceeded
    ensures var w := PlanRow.Resolve(r, seen, target, now);
            && (w.count == 0 || w.count == 1)
            && (w.count == 1 ==>
                  && r.outcome == seen.outcome && Marked(w.row, maxAttempts) && Permits(w.row) <= Permits(r)
                  && w.row.outcome == target)
  {}

  // ----- one step of one actor -----

  /**
    What a step by `id` may do to the histories: others' records stay, and only the
    holder of the claim touches the barrier or sends.
  */
  ghost predicate Guarantee(id: nat, before: Shared, after: Shared) {
    && (after.claimWins == before.claimWins
        || (after.claimWins == before.claimWins + [id] && after.barriers == before.barriers
            && after.sends == before.sends))
    && (before.claimWins != [id] ==>
          after.barriers == before.barriers && after.sends == before.sends && after.attempt == before.attempt)
    && before.readings <= after.readings
  }

  /** The state and the actor a step leaves behind are good, and the step respected the others. */
  ghost predicate Kept(cfg: Config, id: nat, before: Shared, next: (Actor, Shared)) {
    SharedInv(cfg, next.1) && ActorInv(cfg, id, next.0, next.1) && Guarantee(id, before, next.1)
  }

  lemma ReadingSteps(cfg: Config, id: nat, a: Actor, sh: Shared, c: Choice)
    requires SharedInv(cfg, sh) && ActorInv(cfg, id, a, sh) && (a.Lookup? || a.Load? || a.Recheck? || a.Done?)
    ensures Kept(cfg, id, sh, StepActor(cfg, id, a, sh, c))
  {
    hide Recorded, Cleared, Observed, GT.AllPresent, Marked, Permits, Candidate;
  }

  lemma QueryStep(cfg: Config, id: nat, a: Actor, sh: Shared, c: Choice)
    requires SharedInv(cfg, sh) && ActorInv(cfg, id, a, sh) && a.Query?
    ensures Kept(cfg, id, sh, StepActor(cfg, id, a, sh, c))
  {
    hide Recorded, Cleared, Observed, GT.AllPresent, Permits, Marked;
  }

  /** Winning the claim spends the plan's permit and changes nothing that `Marked` reads. */
  lemma ClaimedRow(r: Row, key: Text, now: int, maxAttempts: int)
    requires Marked(r, maxAttempts) && ClaimExecution(r, key, now).count == 1
    ensures var after := ClaimExecution(r, key, now).row;
            && Marked(after, maxAttempts) && Permits(after) + 1 == Permits(r) && after.outcome == r.outcome
  {}

  lemma ClaimStep(cfg: Config, id: nat, a: Actor, sh: Shared, c: Choice)
    requires SharedInv(cfg, sh) && ActorInv(cfg, id, a, sh) && a.Claim?
    ensures Kept(cfg, id, sh, StepActor(cfg, id, a, sh, c))
  {
    hide Recorded, Cleared, Observed, GT.AllPresent, Marked, Permits, ClaimExecution;
    var w := ClaimExecution(sh.row, a.key, c.now);
    if w.count == 1 {
      ClaimedRow(sh.row, a.key, c.now, MaxAttempts(cfg));
      assert sh.claimWins == [];
    } else {
      assert w.count == 0 by { ClaimCounts(sh.row, a.key, c.now); }
    }
  }

  lemma ClaimCounts(r: Row, key: Text, now: int)
    ensures ClaimExecution(r, key, now).count == 0 || ClaimExecution(r, key, now).count == 1
  {}

  lemma SimulateStep(cfg: Config, id: nat, a: Actor, sh: Shared, c: Choice)
    requires SharedInv(cfg, sh) && ActorInv(cfg, id, a, sh) && a.Simulate?
    ensures Kept(cfg, id, sh, StepActor(cfg, id, a, sh, c))
  {
    hide Recorded, Cleared, Observed, GT.AllPresent;
  }

  lemma InspectClears(cfg: Config, key: Text, snapshot: Row, at: int, sh: Shared, c: Choice)
    requires Checked(cfg, snapshot.plan, key, at)
    ensures var (b, after) := StepInspect(cfg, key, snapshot, at, sh, c);
            && after == sh && (b.Fail? || b.Done? || (b.ReadAfter? && !b.sent) || b.Barrier?)
            && (b.Barrier? ==> Cleared(cfg, b.request))
  {}

  lemma InspectStep(cfg: Config, id: nat, a: Actor, sh: Shared, c: Choice)
    requires SharedInv(cfg, sh) && ActorInv(cfg, id, a, sh) && a.Inspect?
    ensures Kept(cfg, id, sh, StepActor(cfg, id, a, sh, c))
  {
    hide Recorded, Cleared, Observed, GT.AllPresent, Marked, StepInspect;
    InspectClears(cfg, a.key, a.snapshot, a.checkedAt, sh, c);
  }

  lemma BarrierStep(cfg: Config, id: nat, a: Actor, sh: Shared, c: Choice)
    requires SharedInv(cfg, sh) && ActorInv(cfg, id, a, sh) && a.Barrier?
    ensures Kept(cfg, id, sh, StepActor(cfg, id, a, sh, c))
  {
    hide Recorded, Cleared, Observed, GT.AllPresent;
    AttemptRecorded(cfg, sh, a.request);
  }

  lemma SendStep(cfg: Config, id: nat, a: Actor, sh: Shared, c: Choice)
    requires SharedInv(cfg, sh) && ActorInv(cfg, id, a, sh) && a.Send?
    ensures Kept(cfg, id, sh, StepActor(cfg, id, a, sh, c))
  {
    hide Recorded, Cleared, Observed, Marked;
    SendRecorded(cfg, sh, a.request);
    assert sh.sends + [a.request] == [a.request];
  }

  lemma RecordIdStep(cfg: Config, id: nat, a: Actor, sh: Shared, c: Choice)
    requires SharedInv(cfg, sh) && ActorInv(cfg, id, a, sh) && a.RecordId?
    ensures Kept(cfg, id, sh, StepActor(cfg, id, a, sh, c))
  {
    hide Recorded, Cleared, Observed;
  }

  lemma ReadAfterStep(cfg: Config, id: nat, a: Actor, sh: Shared, c: Choice)
    requires SharedInv(cfg, sh) && ActorInv(cfg, id, a, sh) && a.ReadAfter?
    ensures Kept(cfg, id, sh, StepActor(cfg, id, a, sh, c))
  {
    hide Recorded, Cleared, GT.AllPresent, Marked;
    if c.reading.Some? { ReadingRecorded(cfg, sh, c.reading.value); }
  }

  lemma ConfirmStep(cfg: Config, id: nat, a: Actor, sh: Shared, c: Choice)
    requires SharedInv(cfg, sh) && ActorInv(cfg, id, a, sh) && a.ConfirmWrite?
    ensures Kept(cfg, id, sh, StepActor(cfg, id, a, sh, c))
  {
    hide Recorded, Cleared, Observed, GT.AllPresent, Marked, Permits, PlanRow.Confirm;
    ConfirmRow(sh.row, a.sent, c.now, MaxAttempts(cfg));
    if a.sent {
      SenderObserved(cfg, a.request, a.found, sh.sends, sh.readings);
      ConfirmationRecorded(cfg, sh, BySender(a.request, a.found));
    }
  }

  lemma PersistStep(cfg: Config, id: nat, a: Actor, sh: Shared, c: Choice)
    requires SharedInv(cfg, sh) && ActorInv(cfg, id, a, sh) && a.Persist?
    ensures Kept(cfg, id, sh, StepActor(cfg, id, a, sh, c))
  {
    hide Recorded, Cleared, Observed, GT.AllPresent;
  }

  lemma LifecycleRow(r: Row, maxAttempts: int)
    requires Marked(r, maxAttempts)
    ensures Marked(PlanRow.FailPlan(r), maxAttempts) && Permits(PlanRow.FailPlan(r)) <= Permits(r)
    ensures Marked(PlanRow.BlockPlan(r), maxAttempts) && Permits(PlanRow.BlockPlan(r)) <= Permits(r)
    ensures PlanRow.FailPlan(r).outcome == PlanRow.BlockPlan(r).outcome == r.outcome
  {}

  lemma LifecycleSteps(cfg: Config, id: nat, a: Actor, sh: Shared, c: Choice)
    requires SharedInv(cfg, sh) && ActorInv(cfg, id, a, sh) && (a.Fail? || a.Block?)
    ensures Kept(cfg, id, sh, StepActor(cfg, id, a, sh, c))
  {
    hide Recorded, Cleared, Observed, GT.AllPresent, Marked, Permits, PlanRow.FailPlan, PlanRow.BlockPlan;
    LifecycleRow(sh.row, MaxAttempts(cfg));
  }

  /** Nothing is ever scheduled: an unresolved row always carries a marker already. */
  lemma ScheduleStep(cfg: Config, id: nat, a: Actor, sh: Shared, c: Choice)
    requires SharedInv(cfg, sh) && ActorInv(cfg, id, a, sh) && a.Schedule?
    ensures Kept(cfg, id, sh, StepActor(cfg, id, a, sh, c))
  {
    hide Recorded, Cleared, Observed, GT.AllPresent;
    assert ScheduleReconciliation(sh.row, a.snapshot, c.now) == sh.row;
  }

  /** Winning a reconciliation attempt leaves a marked row, within the budget, with the outcome it had. */
  lemma ClaimedAttemptRow(r: Row, seen: Row, now: int, staleMs: int, maxAttempts: int)
    requires Marked(r, maxAttempts) && (seen.outcome == NotAttempted || IsUnresolved(seen.outcome))
        && seen.attempts < maxAttempts
    ensures var w := ClaimReconciliation(r, seen, now, staleMs);
            && (w.count == 0 || w.count == 1)
            && (w.count == 1 ==>
                  Marked(w.row, maxAttempts) && Permits(w.row) == Permits(r) && w.row.outcome == r.outcome)
  {}

  lemma ClaimAttemptStep(cfg: Config, id: nat, a: Actor, sh: Shared, c: Choice)
    requires SharedInv(cfg, sh) && ActorInv(cfg, id, a, sh) && a.ClaimAttempt?
    ensures Kept(cfg, id, sh, StepActor(cfg, id, a, sh, c))
  {
    hide Recorded, Cleared, Observed, GT.AllPresent, Marked, Permits, PlanRow.ClaimReconciliation;
    hide StepLookup, StepLoad, StepClaim, StepInspect, StepBarrier, StepSend, StepRecordId, StepRecheck, StepReadAfter,
         StepConfirm, StepPersist, StepSchedule, StepQuery, StepObserve, StepRetry, StepResolve, StepReview;
    ClaimedAttemptRow(sh.row, a.snapshot, a.at, cfg.staleMs, MaxAttempts(cfg));
  }

  lemma ObserveStep(cfg: Config, id: nat, a: Actor, sh: Shared, c: Choice)
    requires SharedInv(cfg, sh) && ActorInv(cfg, id, a, sh) && a.Observe?
    ensures Kept(cfg, id, sh, StepActor(cfg, id, a, sh, c))
  {
    hide Recorded, Cleared, GT.AllPresent, Marked;
    if c.reading.Some? { ReadingRecorded(cfg, sh, c.reading.value); }
  }

  lemma RetryStep(cfg: Config, id: nat, a: Actor, sh: Shared, c: Choice)
    requires SharedInv(cfg, sh) && ActorInv(cfg, id, a, sh) && a.Retry?
    ensures Kept(cfg, id, sh, StepActor(cfg, id, a, sh, c))
  {
    hide Recorded, Cleared, Observed, RetryDelay;
  }

  lemma ResolveStep(cfg: Config, id: nat, a: Actor, sh: Shared, c: Choice)
    requires SharedInv(cfg, sh) && ActorInv(cfg, id, a, sh) && a.ResolveAs?
    ensures Kept(cfg, id, sh, StepActor(cfg, id, a, sh, c))
  {
    hide Recorded, Cleared, Observed, GT.AllPresent, Marked, Permits, PlanRow.Resolve;
    ResolveRow(sh.row, a.snapshot, a.outcome, a.at, MaxAttempts(cfg));
    if a.evidence.Some? {
      ObservedBySends(cfg, a.evidence.value, sh.sends, sh.readings);
      ConfirmationRecorded(cfg, sh, a.evidence.value);
    }
  }

  lemma ReviewStep(cfg: Config, id: nat, a: Actor, sh: Shared, c: Choice)
    requires SharedInv(cfg, sh) && ActorInv(cfg, id, a, sh) && a.ReviewBy?
    ensures Kept(cfg, id, sh, StepActor(cfg, id, a, sh, c))
  {
    hide Recorded, Cleared, Observed, GT.AllPresent;
  }

  lemma ActorStepKeeps(cfg: Config, id: nat, a: Actor, sh: Shared, c: Choice)
    requires SharedInv(cfg, sh) && ActorInv(cfg, id, a, sh)
    ensures Kept(cfg, id, sh, StepActor(cfg, id, a, sh, c))
  {
    hide *;
    match a {
      case Lookup(_) => ReadingSteps(cfg, id, a, sh, c);
      case Load(_) => ReadingSteps(cfg, id, a, sh, c);
      case Claim(_, _, _) => ClaimStep(cfg, id, a, sh, c);
      case Simulate => SimulateStep(cfg, id, a, sh, c);
      case Inspect(_, _, _) => InspectStep(cfg, id, a, sh, c);
      case Barrier(_) => BarrierStep(cfg, id, a, sh, c);
      case Send(_) => SendStep(cfg, id, a, sh, c);
      case RecordId(_, _) => RecordIdStep(cfg, id, a, sh, c);
      case Recheck(_, _) => ReadingSteps(cfg, id, a, sh, c);
      case ReadAfter(_, _, _) => ReadAfterStep(cfg, id, a, sh, c);
      case ConfirmWrite(_, _, _, _) => ConfirmStep(cfg, id, a, sh, c);
      case Persist(_, _) => PersistStep(cfg, id, a, sh, c);
      case Fail => LifecycleSteps(cfg, id, a, sh, c);
      case Block => LifecycleSteps(cfg, id, a, sh, c);
      case Schedule(_) => ScheduleStep(cfg, id, a, sh, c);
      case Query => QueryStep(cfg, id, a, sh, c);
      case ClaimAttempt(_, _) => ClaimAttemptStep(cfg, id, a, sh, c);
      case Observe(_, _, _) => ObserveStep(cfg, id, a, sh, c);
      case Retry(_, _, _) => RetryStep(cfg, id, a, sh, c);
      case ResolveAs(_, _, _, _, _) => ResolveStep(cfg, id, a, sh, c);
      case ReviewBy(_, _, _) => ReviewStep(cfg, id, a, sh, c);
      case Done => ReadingSteps(cfg, id, a, sh, c);
    }
  }

  /** No other actor's knowledge is disturbed. */
  lemma OthersUndisturbed(cfg: Config, id: nat, other: nat, b: Actor, before: Shared, after: Shared)
    requires other != id && ActorInv(cfg, other, b, before) && Guarantee(id, before, after)
    requires SharedInv(cfg, after)
    ensures ActorInv(cfg, other, b, after)
  {
    hide Recorded, Cleared, CandidateSnapshot, Marked, GT.AllPresent;
    LocalStable(cfg, b, before.readings, after.readings);
  }

  lemma LocalStable(cfg: Config, a: Actor, before: seq<Reading>, after: seq<Reading>)
    requires before <= after && LocalInv(cfg, a, before)
    ensures LocalInv(cfg, a, after)
  {
    hide Cleared, CandidateSnapshot, Marked, GT.AllPresent;
    assert forall r | r in before :: r in after;
  }

  // ----- events and runs -----

  lemma RouteKeeps(cfg: Config, sh: Shared, w: OutsideWrite)
    requires SharedInv(cfg, sh)
    ensures SharedInv(cfg, ExecRoute(sh, w))
  {
    hide Cleared, Observed;
  }

  lemma RouteUnnoticed(cfg: Config, id: nat, a: Actor, sh: Shared, w: OutsideWrite)
    requires ActorInv(cfg, id, a, sh)
    ensures ActorInv(cfg, id, a, ExecRoute(sh, w))
  {
    hide LocalInv, Outside, Restarts;
  }

  lemma FreshActor(cfg: Config, id: nat, a: Actor, sh: Shared)
    requires a.Lookup? || a.Query? || a.Done?
    ensures ActorInv(cfg, id, a, sh)
  {}

  lemma EventKeeps(cfg: Config, s: State, e: Event)
    requires Inv(cfg, s)
    ensures Inv(cfg, Exec(cfg, s, e))
  {
    hide SharedInv, ActorInv, Guarantee, StepActor, ExecRoute;
    var t := Exec(cfg, s, e);
    match e {
      case Step(id, c) =>
        if id < |s.actors| {
          ActorStepKeeps(cfg, id, s.actors[id], s.shared, c);
          forall other | 0 <= other < |t.actors| ensures ActorInv(cfg, other, t.actors[other], t.shared) {
            if other != id {
              OthersUndisturbed(cfg, id, other, s.actors[other], s.shared, t.shared);
            }
          }
        }
      case Route(w) =>
        RouteKeeps(cfg, s.shared, w);
        forall id | 0 <= id < |t.actors| ensures ActorInv(cfg, id, t.actors[id], t.shared) {
          RouteUnnoticed(cfg, id, s.actors[id], s.shared, w);
        }
      case Crash(id) => FreshActor(cfg, id, Done, s.shared);
      case Deliver(key) => FreshActor(cfg, |s.actors|, Lookup(key), s.shared);
      case StartReconciler => FreshActor(cfg, |s.actors|, Query, s.shared);
    }
  }

  lemma {:induction false} RunKeeps(cfg: Config, s: State, events: seq<Event>)
    requires Inv(cfg, s)
    ensures Inv(cfg, Run(cfg, s, events))
    decreases |events|
  {
    hide Inv, Exec;
    if events != [] {
      RunKeeps(cfg, s, events[..|events| - 1]);
      EventKeeps(cfg, Run(cfg, s, events[..|events| - 1]), events[|events| - 1]);
    }
  }

  lemma InitHolds(cfg: Config, s: State)
    requires Init(s)
    ensures Inv(cfg, s)
  {}

  /** The invariant holds in every state of every run. */
  lemma InvAlways(cfg: Config, s: State, events: seq<Event>)
    requires Init(s)
    ensures Inv(cfg, Run(cfg, s, events))
  {
    InitHolds(cfg, s);
    RunKeeps(cfg, s, events);
  }
}
