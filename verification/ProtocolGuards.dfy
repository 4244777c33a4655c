/**
  What has to hold of the row at the very moment of a write, whatever the writer saw
  before, and how long the row is then left alone.
*/
module ProtocolGuards {
  import opened Wrappers
  import opened JsonText
  import opened PlanRow
  import opened Protocol
  import opened ProtocolCore
  import PT = ProtocolTheorems
  import GT = GovernedTagging

  // ----- the claim and the barrier -----

  /** A permission to execute, as the row shows it at the moment of a claim. */
  predicate Permitted(r: Row, now: int) {
    Claimable(r.lifecycle) && r.approvalGranted && r.outcome == NotAttempted
    && (ExpiryOf(r).Some? ==> now < ExpiryOf(r).value)
  }

  /**
    A claim is won only on a row that then holds the job's key and a permission in time, so
    an approval withdrawn or expired since the plan was loaded stops it.
  */
  lemma ClaimSeesPermission(cfg: Config, s: State, e: Event)
    requires Exec(cfg, s, e).shared.claimWins != s.shared.claimWins
    ensures e.Step? && e.id < |s.actors| && s.actors[e.id].Claim?
    ensures Permitted(s.shared.row, e.choice.now) && KeyOf(s.shared.row) == Some(s.actors[e.id].key)
    ensures Exec(cfg, s, e).shared.row.lifecycle == Executing
        && Exec(cfg, s, e).shared.row.leaseAt == Some(e.choice.now)
  {
    hide GT.AllPresent, Candidate, RetryDelay;
    var t := Exec(cfg, s, e);
    if e.Step? && e.id < |s.actors| && !s.actors[e.id].Claim? {
      OnlyClaimsClaim(cfg, e.id, s.actors[e.id], s.shared, e.choice);
    }
  }

  lemma OnlyClaimsClaim(cfg: Config, id: nat, a: Actor, sh: Shared, c: Choice)
    requires !a.Claim?
    ensures StepActor(cfg, id, a, sh, c).1.claimWins == sh.claimWins
  {
    hide GT.AllPresent, Candidate, RetryDelay;
  }

  lemma OnlyBarriersPass(cfg: Config, id: nat, a: Actor, sh: Shared, c: Choice)
    requires !a.Barrier?
    ensures StepActor(cfg, id, a, sh, c).1.barriers == sh.barriers
  {
    hide GT.AllPresent, Candidate, RetryDelay;
  }

  /**
    The barrier is passed only on a row that is still executing and not attempted, so a plan
    blocked, failed or simulated again since the claim is not sent. Nothing but the
    barrier's marks change, and no query selects the plan before it is stale.
  */
  lemma BarrierSeesExecution(cfg: Config, s: State, e: Event)
    requires Exec(cfg, s, e).shared.barriers != s.shared.barriers
    ensures e.Step? && e.id < |s.actors| && s.actors[e.id].Barrier?
    ensures s.shared.row.lifecycle == Executing && s.shared.row.outcome == NotAttempted
    ensures var after := Exec(cfg, s, e).shared;
            && after.attempt == Some(s.actors[e.id].request)
            && after.row == s.shared.row.(outcome := Attempted, attemptedAt := Some(e.choice.now), status := Pending)
            && forall now :: Candidate(after.row, now, cfg.staleMs, MaxAttempts(cfg)) <==>
                               now >= e.choice.now + cfg.staleMs && after.row.attempts < MaxAttempts(cfg)
  {
    hide GT.AllPresent, RetryDelay;
    if e.Step? && e.id < |s.actors| && !s.actors[e.id].Barrier? {
      OnlyBarriersPass(cfg, e.id, s.actors[e.id], s.shared, e.choice);
    }
  }

  /**
    A delivery sends only after its barrier was acknowledged, and reads back only after a
    request without an id or with its id on record; otherwise it stops or reports an
    unknown outcome.
  */
  lemma GoesOnOnlyIfAcknowledged(cfg: Config, id: nat, a: Actor, sh: Shared, c: Choice)
    ensures var (b, after) := StepActor(cfg, id, a, sh, c);
            && (b.Send? ==> a == Barrier(b.request) && c.ack.Acked? && after.row.outcome == Attempted)
            && (b.ReadAfter? && b.sent ==>
                  if a.Send? then a.request == b.request && c.response == Accepted(None) && b.maybeId.None?
                  else
                    && (a.RecordId? || a.Recheck?) && c.ack.Acked? && a.request == b.request
                    && b.maybeId == Some(a.id) && after.row.providerId == after.row.awsId == Some(a.id))
  {
    hide GT.AllPresent, Candidate, RetryDelay;
  }

  // ----- the routes -----

  /** What withdraws a permission: asking anew, rejecting, blocking and simulating again. */
  predicate Withdraws(r: Row, w: OutsideWrite) {
    || w.RequestApproval? || w.BlockRoute? || Restarts(r, w)
    || (w.Decide? && !w.approve && r.lifecycle == PendingApproval && !Bound(r))
  }

  /** Only approving a pending plan, which binds the approval for good, makes it claimable. */
  lemma OnlyApprovingPermits(r: Row, w: OutsideWrite)
    requires Claimable(Outside(r, w).lifecycle) && !Claimable(r.lifecycle)
    ensures w.Decide? && w.approve && r.lifecycle == PendingApproval && !Bound(r)
    ensures var after := Outside(r, w);
            after.lifecycle == Approved && after.approvalGranted && Bound(after) && after.plan == w.plan
  {}

  /** After a withdrawal nobody can claim, and the approval is no longer granted unless the plan is merely blocked. */
  lemma WithdrawnIsNotPermitted(r: Row, w: OutsideWrite, now: int)
    requires Withdraws(r, w)
    ensures var after := Outside(r, w);
            && !Permitted(after, now) && !Claimable(after.lifecycle)
            && (if w.BlockRoute? then after == r.(lifecycle := Blocked) else !after.approvalGranted)
            && (w.Decide? ==> after.lifecycle == Blocked)
  {}

  /** Simulating again leaves a plan under its new key and expiry as if nothing had been attempted, but for one id. */
  lemma RestartedIsFresh(r: Row, w: OutsideWrite)
    requires Restarts(r, w)
    ensures var after := Outside(r, w);
            && KeyOf(after) == Some(w.key) && ExpiryOf(after) == Some(w.expiresAt)
            && after.outcome == NotAttempted && after.status == NotRequired && after.attempts == 0
            && after.attemptedAt.None? && after.confirmedAt.None? && after.leaseAt.None? && after.lastAt.None?
            && after.nextAt.None? && after.providerId.None? && after.awsId == r.awsId
            && after.plan.approvedByRequestId == r.plan.approvedByRequestId
  {}

  /** A plan is queued only while it is approved with nothing attempted, and then for the key it is queued under. */
  lemma QueuedIsApproved(r: Row, w: OutsideWrite)
    requires Outside(r, w).lifecycle == Queued && r.lifecycle != Queued
    ensures w.Queue? && r.lifecycle == Approved && r.approvalGranted && r.outcome == NotAttempted
    ensures KeyOf(Outside(r, w)) == Some(w.key)
  {}

  /** A plan that could not be queued answers for its key from then on. */
  lemma EnqueueFailedIsAnswered(r: Row, key: Text)
    requires Claimable(r.lifecycle)
    ensures var after := Outside(r, EnqueueFailed(key));
            KeyOf(after) == Some(key) && Settled(after.lifecycle) && after.outcome == NotAttempted
  {}

  // ----- how long a plan is left alone -----

  /** The minutes before the next attempt, by the number of the one that failed. */
  function Minutes(attempt: nat): nat
    requires attempt >= 1
  {
    if attempt == 1 then 2 else if attempt == 2 then 4 else if attempt == 3 then 8 else 15
  }

  lemma DelayIsMinutes(attempt: nat)
    requires attempt >= 1
    ensures RetryDelay(attempt) == Minutes(attempt) * 60_000
  {
    PT.RetryDelayBounds(attempt);
    assert Power(1) == 2 && Power(2) == 4 && Power(3) == 8;
  }

  /** After a failed reading no query selects the plan before the minutes for that attempt are over. */
  lemma RetryWaits(cfg: Config, s: State, events: seq<Event>, id: nat, c: Choice, now: int)
    requires Init(s) && id < |Run(cfg, s, events).actors| && Run(cfg, s, events).actors[id].Retry?
    requires var t := Run(cfg, s, events); Exec(cfg, t, Step(id, c)).shared.row != t.shared.row
    ensures var t := Run(cfg, s, events);
            var a, after := t.actors[id], Exec(cfg, t, Step(id, c)).shared.row;
            && after.attempts == a.snapshot.attempts + 1
            && after.outcome == t.shared.row.outcome && IsUnresolved(after.outcome) && after.attemptedAt.Some?
            && (Candidate(after, now, cfg.staleMs, MaxAttempts(cfg)) <==>
                  now >= a.at + Minutes(after.attempts) * 60_000 && now >= after.attemptedAt.value + cfg.staleMs)
  {
    hide Run, RetryDelay, Recorded;
    InvAlways(cfg, s, events);
    var t := Run(cfg, s, events);
    var a := t.actors[id];
    assert ActorInv(cfg, id, a, t.shared);
    DelayIsMinutes(a.snapshot.attempts + 1);
  }

  /** A claimed attempt is not taken over before it is stale. */
  lemma ClaimWaits(cfg: Config, s: State, events: seq<Event>, id: nat, c: Choice, now: int)
    requires Init(s) && id < |Run(cfg, s, events).actors| && Run(cfg, s, events).actors[id].ClaimAttempt?
    requires var t := Run(cfg, s, events); Exec(cfg, t, Step(id, c)).shared.row != t.shared.row
    ensures var t := Run(cfg, s, events);
            var a, after := t.actors[id], Exec(cfg, t, Step(id, c)).shared.row;
            && after.attempts == a.snapshot.attempts + 1 && after.status == InProgress
            && (Candidate(after, now, cfg.staleMs, MaxAttempts(cfg)) <==>
                  IsUnresolved(after.outcome) && now >= a.at + cfg.staleMs && after.attempts < MaxAttempts(cfg))
  {
    hide Run, Recorded, StaleInProgress;
    InvAlways(cfg, s, events);
    var t := Run(cfg, s, events);
    assert ActorInv(cfg, id, t.actors[id], t.shared);
  }

  /**
    A delivery that comes across an unresolved plan without a marker gives it one, so that
    it is selected once it is stale; otherwise it leaves the plan as it is.
  */
  lemma ScheduledIsSelected(r: Row, at: int, staleMs: int, maxAttempts: int, now: int)
    requires r.attemptedAt.Some? && r.attempts < maxAttempts
    ensures var after := ScheduleReconciliation(r, r, at);
            if IsUnresolved(r.outcome) && r.status != Pending && r.status != InProgress && r.status != FailedRetryable
            then after == r.(status := Pending, nextAt := Some(at))
                && (Candidate(after, now, staleMs, maxAttempts) <==> now >= r.attemptedAt.value + staleMs)
            else after == r
  {}

  // ----- confirmations -----

  /** When a step writes its outcome: a reconciler by the time of its round, a worker by its clock. */
  function WriteTime(a: Actor, c: Choice): int {
    if a.ResolveAs? then a.at else c.now
  }

  predicate Confirms(a: Actor) {
    a.ConfirmWrite? || a.Persist? || a.ResolveAs?
  }

  lemma OthersDoNotConfirm(cfg: Config, id: nat, a: Actor, sh: Shared, c: Choice)
    requires !Confirms(a) && IsConfirmed(StepActor(cfg, id, a, sh, c).1.row.outcome)
    ensures StepActor(cfg, id, a, sh, c).1.row.outcome == sh.row.outcome
  {
    hide GT.AllPresent, Candidate, RetryDelay;
  }

  lemma ConfirmingRow(cfg: Config, id: nat, a: Actor, sh: Shared, c: Choice)
    requires ActorInv(cfg, id, a, sh) && Confirms(a)
    requires var after := StepActor(cfg, id, a, sh, c).1.row;
             IsConfirmed(after.outcome) && after.outcome != sh.row.outcome
    ensures var after := StepActor(cfg, id, a, sh, c).1.row;
            && after.confirmedAt == Some(WriteTime(a, c)) && after.status == Resolved && after.nextAt.None?
            && after.lifecycle == (if after.outcome == ConfirmedSucceeded then RollbackAvailable else Failed)
  {
    hide GT.AllPresent, Observed, CandidateSnapshot, Cleared, StillClaimed, StepLookup, StepLoad, StepClaim,
         StepInspect, StepBarrier, StepSend, StepRecordId, StepRecheck, StepReadAfter, StepSchedule, StepQuery,
         StepClaimAttempt, StepObserve, StepRetry, StepReview;
  }

  /**
    In every run, a step that confirms the outcome records when, leaves nothing for a
    query, and makes the plan ready to be rolled back exactly if the change succeeded.
  */
  lemma ConfirmationIsTimed(cfg: Config, s: State, events: seq<Event>, id: nat, c: Choice)
    requires Init(s) && id < |Run(cfg, s, events).actors|
    requires var t := Run(cfg, s, events);
             var after := Exec(cfg, t, Step(id, c)).shared.row;
             IsConfirmed(after.outcome) && after.outcome != t.shared.row.outcome
    ensures var t := Run(cfg, s, events);
            var after := Exec(cfg, t, Step(id, c)).shared.row;
            && after.confirmedAt == Some(WriteTime(t.actors[id], c)) && after.status == Resolved && after.nextAt.None?
            && after.lifecycle == (if after.outcome == ConfirmedSucceeded then RollbackAvailable else Failed)
  {
    hide Run, StepActor, SharedInv, LocalInv;
    InvAlways(cfg, s, events);
    var t := Run(cfg, s, events);
    assert ActorInv(cfg, id, t.actors[id], t.shared);
    if Confirms(t.actors[id]) {
      ConfirmingRow(cfg, id, t.actors[id], t.shared, c);
    } else {
      OthersDoNotConfirm(cfg, id, t.actors[id], t.shared, c);
    }
  }
}
