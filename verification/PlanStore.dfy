/**
  The worker and the reconciler as the code writes them: straight-line procedures over
  the columns of one stored plan. Each guarded write is one method; the two procedures
  are proved to be uninterrupted runs of the protocol, so whatever holds of every run
  holds of them.
*/
module PlanStore {
  import opened Wrappers
  import opened JsonText
  import opened PlanRow
  import opened Protocol
  import PT = ProtocolTheorems
  import PF = Preflight
  import GT = GovernedTagging

  // ----- one actor left alone -----

  /** Actor `a` steps from position `k` of the answers `env`, with nobody else about. */
  function Solo(cfg: Config, id: nat, a: Actor, sh: Shared, env: seq<Choice>, k: nat): (Actor, Shared)
    requires k <= |env|
    decreases |env| - k
  {
    if k == |env| || a.Done? then (a, sh)
    else
      var (b, after) := StepActor(cfg, id, a, sh, env[k]);
      Solo(cfg, id, b, after, env, k + 1)
  }

  lemma SoloStep(cfg: Config, id: nat, a: Actor, sh: Shared, env: seq<Choice>, k: nat)
    requires k < |env| && !a.Done?
    ensures var (b, after) := StepActor(cfg, id, a, sh, env[k]);
            Solo(cfg, id, a, sh, env, k) == Solo(cfg, id, b, after, env, k + 1)
  {}

  lemma SoloEnds(cfg: Config, id: nat, sh: Shared, env: seq<Choice>, k: nat)
    requires k <= |env|
    ensures Solo(cfg, id, Done, sh, env, k) == (Done, sh)
  {}

  function Steps(id: nat, env: seq<Choice>): seq<Event> {
    seq(|env|, i requires 0 <= i < |env| => Step(id, env[i]))
  }

  lemma NoSteps(cfg: Config, id: nat, a: Actor, sh: Shared, env: seq<Choice>)
    ensures Steps(id, env[|env|..]) == [] && Solo(cfg, id, a, sh, env, |env|) == (a, sh)
  {}

  lemma DoneStays(cfg: Config, id: nat, sh: Shared, c: Choice)
    ensures StepActor(cfg, id, Done, sh, c) == (Done, sh)
  {}

  lemma StepsSplit(id: nat, env: seq<Choice>, k: nat)
    requires k < |env|
    ensures Steps(id, env[k..]) == [Step(id, env[k])] + Steps(id, env[k+1..])
  {}

  lemma RunFirst(cfg: Config, s: State, e: Event, rest: seq<Event>)
    ensures Run(cfg, s, [e] + rest) == Run(cfg, Exec(cfg, s, e), rest)
  {
    hide Exec;
    PT.RunSplits(cfg, s, [e], rest);
    assert [e][..0] == [];
  }

  lemma StepOnce(cfg: Config, s: State, id: nat, c: Choice)
    requires id < |s.actors|
    ensures var (b, after) := StepActor(cfg, id, s.actors[id], s.shared, c);
            var next := Exec(cfg, s, Step(id, c));
            next.shared == after && |next.actors| == |s.actors| && next.actors[id] == b
            && forall x {:trigger next.actors[id := x]} :: next.actors[id := x] == s.actors[id := x]
  {
    hide StepActor;
  }

  /** An actor left alone is a run of the system. */
  lemma {:induction false} SoloIsARun(cfg: Config, s: State, id: nat, env: seq<Choice>, k: nat)
    requires id < |s.actors| && k <= |env|
    ensures var (b, after) := Solo(cfg, id, s.actors[id], s.shared, env, k);
            Run(cfg, s, Steps(id, env[k..])) == State(after, s.actors[id := b])
    decreases |env| - k
  {
    hide StepActor, Exec, Steps, Solo;
    if k == |env| {
      NoSteps(cfg, id, s.actors[id], s.shared, env);
      assert s.actors[id := s.actors[id]] == s.actors;
    } else {
      hide Run;
      StepsSplit(id, env, k);
      RunFirst(cfg, s, Step(id, env[k]), Steps(id, env[k+1..]));
      StepOnce(cfg, s, id, env[k]);
      SoloIsARun(cfg, Exec(cfg, s, Step(id, env[k])), id, env, k + 1);
      if s.actors[id].Done? {
        DoneStays(cfg, id, s.shared, env[k]);
        SoloEnds(cfg, id, s.shared, env, k);
        SoloEnds(cfg, id, s.shared, env, k + 1);
      } else {
        SoloStep(cfg, id, s.actors[id], s.shared, env, k);
      }
    }
  }

  /** A delivery, or a reconciler, that starts now and is then left alone is a run of the system. */
  lemma StartedAloneIsARun(cfg: Config, s: State, start: Event, env: seq<Choice>)
    requires start.Deliver? || start.StartReconciler?
    ensures var id := |s.actors|;
            var (b, after) := Solo(cfg, id, if start.Deliver? then Lookup(start.key) else Query, s.shared, env, 0);
            Run(cfg, s, [start] + Steps(id, env)) == State(after, s.actors + [b])
  {
    hide Solo, StepActor;
    var id := |s.actors|;
    var started := Exec(cfg, s, start);
    RunFirst(cfg, s, start, Steps(id, env));
    assert env[0..] == env;
    SoloIsARun(cfg, started, id, env, 0);
  }

  /** What a reconciliation attempt reports. */
  datatype Report = NotClaimed | StaleResolution | WillRetry | Concluded(outcome: Outcome) | NeedsReview

  /** The columns of one `RemediationPlan` row. */
  class PlanStore {
    var plan: PF.Plan
    var lifecycle: Lifecycle
    var approvalGranted: bool
    var outcome: Outcome
    var status: Status
    var attempts: nat
    var attemptedAt: Option<int>
    var confirmedAt: Option<int>
    var leaseAt: Option<int>
    var lastAt: Option<int>
    var nextAt: Option<int>
    var providerId: Option<Text>
    var awsId: Option<Text>

    /** The row as a query returns it. */
    function Contents(): Row
      reads this
    {
      Row(plan, lifecycle, approvalGranted, outcome, status, attempts, attemptedAt, confirmedAt, leaseAt, lastAt,
          nextAt, providerId, awsId)
    }

    constructor (r: Row)
      ensures Contents() == r
    {
      plan, lifecycle, approvalGranted, outcome := r.plan, r.lifecycle, r.approvalGranted, r.outcome;
      status, attempts, attemptedAt, confirmedAt := r.status, r.attempts, r.attemptedAt, r.confirmedAt;
      leaseAt, lastAt, nextAt, providerId, awsId := r.leaseAt, r.lastAt, r.nextAt, r.providerId, r.awsId;
    }

    // ----- the worker's writes -----

    method ClaimExecution(key: Text, now: int) returns (count: nat)
      modifies this
      ensures Write(Contents(), count) == PlanRow.ClaimExecution(old(Contents()), key, now)
    {
      count := 0;
      var expiresAt := plan.input.approvalExpiresAt;
      if plan.input.idempotencyKey == Some(key) && Claimable(lifecycle) && approvalGranted && outcome == NotAttempted {
        if expiresAt.None? || expiresAt.value > now {
          lifecycle := Executing;
          leaseAt := Some(now);
          count := 1;
        }
      }
    }

    method CompleteSimulation()
      modifies this
      ensures Contents() == PlanRow.CompleteSimulation(old(Contents()))
    {
      lifecycle := Succeeded;
      outcome := NotAttempted;
      status := NotRequired;
    }

    method FailPlan()
      modifies this
      ensures Contents() == PlanRow.FailPlan(old(Contents()))
    {
      lifecycle := Failed;
    }

    method BlockPlan()
      modifies this
      ensures Contents() == PlanRow.BlockPlan(old(Contents()))
    {
      lifecycle := Blocked;
    }

    method RecordAttempt(now: int) returns (count: nat)
      modifies this
      ensures Write(Contents(), count) == PlanRow.RecordAttempt(old(Contents()), now)
    {
      count := 0;
      if lifecycle == Executing && outcome == NotAttempted {
        outcome := Attempted;
        attemptedAt := Some(now);
        status := Pending;
        count := 1;
      }
    }

    method RecordRequestId(id: Text) returns (count: nat)
      modifies this
      ensures Write(Contents(), count) == PlanRow.RecordRequestId(old(Contents()), id)
    {
      count := 0;
      if outcome == Attempted && providerId.None? && awsId.None? {
        providerId := Some(id);
        awsId := Some(id);
        count := 1;
      }
    }

    method Confirm(sent: bool, now: int) returns (count: nat)
      modifies this
      ensures Write(Contents(), count) == PlanRow.Confirm(old(Contents()), sent, now)
    {
      count := 0;
      if outcome == if sent then Attempted else NotAttempted {
        lifecycle := RollbackAvailable;
        if sent {
          outcome := ConfirmedSucceeded;
          confirmedAt := Some(now);
          status := Resolved;
        } else {
          confirmedAt := None;
          status := NotRequired;
        }
        nextAt := None;
        count := 1;
      }
    }

    method PersistMutationOutcome(target: Outcome, candidate: Option<Text>, now: int) returns (count: nat)
      modifies this
      ensures Write(Contents(), count) == PlanRow.PersistOutcome(old(Contents()), target, candidate, now)
    {
      var existing := Either(providerId, awsId);
      var conflict := candidate.Some? && existing.Some? && candidate != existing;
      var id := Either(existing, candidate);
      var uncertain := target == OutcomeUnknown;
      count := 0;
      if outcome == Attempted {
        lifecycle, outcome := Failed, target;
        status := if uncertain then Pending else Resolved;
        confirmedAt, nextAt := if uncertain then None else Some(now), if uncertain then Some(now) else None;
        if !conflict {
          providerId, awsId := Either(providerId, id), Either(awsId, id);
        }
        count := 1;
      }
    }

    method EnsureReconciliationScheduled(seen: Row, now: int)
      modifies this
      ensures Contents() == PlanRow.ScheduleReconciliation(old(Contents()), seen, now)
    {
      if !IsUnresolved(seen.outcome) { return; }
      if seen.status == Pending || seen.status == InProgress || seen.status == FailedRetryable { return; }
      if outcome == seen.outcome && status == seen.status {
        status := Pending;
        nextAt := Some(now);
      }
    }

    // ----- the reconciler's writes -----

    method ClaimReconciliation(seen: Row, now: int, staleMs: int) returns (count: nat)
      modifies this
      ensures Write(Contents(), count) == PlanRow.ClaimReconciliation(old(Contents()), seen, now, staleMs)
    {
      var staleBefore := now - staleMs;
      var staleInProgress :=
        seen.status == InProgress && seen.lastAt.Some? && seen.lastAt.value <= staleBefore
            && IsUnresolved(seen.outcome);
      count := 0;
      if outcome == seen.outcome && attempts == seen.attempts && status == seen.status {
        if if staleInProgress then lastAt == seen.lastAt
            else status == Unset || status == Pending || status == FailedRetryable {
          status := InProgress;
          attempts := attempts + 1;
          lastAt := Some(now);
          nextAt := None;
          count := 1;
        }
      }
    }

    method RetryLater(seen: Row, now: int) returns (count: nat)
      modifies this
      ensures Write(Contents(), count) == PlanRow.RetryLater(old(Contents()), seen, now)
    {
      var attempt := seen.attempts + 1;
      var next := now + RetryDelay(attempt);
      count := 0;
      if outcome == seen.outcome && status == InProgress && attempts == attempt {
        status := FailedRetryable;
        nextAt := Some(next);
        count := 1;
      }
    }

    method PersistResolution(seen: Row, target: Outcome, now: int) returns (count: nat)
      modifies this
      ensures Write(Contents(), count) == PlanRow.Resolve(old(Contents()), seen, target, now)
    {
      count := 0;
      if outcome == seen.outcome && status == InProgress && attempts == seen.attempts + 1 {
        outcome := target;
        status := Resolved;
        lastAt := Some(now);
        nextAt := None;
        if target == NotAttempted {
          lifecycle := Failed;
        } else {
          lifecycle := RollbackAvailable;
          confirmedAt := Some(now);
        }
        count := 1;
      }
    }

    method PersistManualReview(seen: Row, now: int) returns (count: nat)
      modifies this
      ensures Write(Contents(), count) == PlanRow.Review(old(Contents()), seen, now)
    {
      count := 0;
      if outcome == seen.outcome && status == InProgress && attempts == seen.attempts + 1 {
        outcome := ManualReviewRequired;
        status := ManualReview;
        lifecycle := Failed;
        lastAt := Some(now);
        nextAt := None;
        count := 1;
      }
    }

    // ----- the worker -----

    /** The row is where actor `a` would have left it, had it stepped alone from position `k`. */
    ghost predicate Follows(cfg: Config, id: nat, a: Actor, sh: Shared, env: seq<Choice>, k: nat)
      requires k <= |env|
      reads this
    {
      Solo(cfg, id, a, sh, env, k).0.Done? && Contents() == Solo(cfg, id, a, sh, env, k).1.row
    }

    /** `failGovernedPlan`, as a step of the delivery. */
    method FailGovernedPlan(ghost cfg: Config, ghost id: nat, ghost sh: Shared, env: seq<Choice>, k: nat)
      requires Contents() == sh.row && k < |env| && env[k].ack.Acked?
      modifies this
      ensures Follows(cfg, id, Fail, sh, env, k)
    {
      hide Solo, Contents;
      FailPlan();
      SoloStep(cfg, id, Fail, sh, env, k);
      SoloEnds(cfg, id, Put(sh, PlanRow.FailPlan(sh.row)), env, k + 1);
    }

    /** `blockGovernedPlan`, as a step of the delivery. */
    method BlockGovernedPlan(ghost cfg: Config, ghost id: nat, ghost sh: Shared, env: seq<Choice>, k: nat)
      requires Contents() == sh.row && k < |env| && env[k].ack.Acked?
      modifies this
      ensures Follows(cfg, id, Block, sh, env, k)
    {
      hide Solo, Contents;
      BlockPlan();
      SoloStep(cfg, id, Block, sh, env, k);
      SoloEnds(cfg, id, Put(sh, PlanRow.BlockPlan(sh.row)), env, k + 1);
    }

    /** `persistMutationOutcome`, as a step of the delivery. */
    method PersistOutcome(ghost cfg: Config, ghost id: nat, target: Outcome, rid: Option<Text>, ghost sh: Shared,
      env: seq<Choice>, k: nat)
      requires Contents() == sh.row && k < |env| && env[k].ack.Acked?
      modifies this
      ensures Follows(cfg, id, Persist(target, rid), sh, env, k)
    {
      hide Solo, Contents;
      var count := PersistMutationOutcome(target, rid, env[k].now);
      SoloStep(cfg, id, Persist(target, rid), sh, env, k);
      SoloEnds(cfg, id, StepPersist(target, rid, sh, env[k]).1, env, k + 1);
    }

    /** The read after the write, and the confirmation, of a delivery that sent a request or had none to send. */
    method VerifyAndConfirm(cfg: Config, ghost id: nat, request: Request, sent: bool, rid: Option<Text>,
      ghost sh: Shared, env: seq<Choice>, k: nat)
      requires Contents() == sh.row && k + 3 <= |env| && forall c | c in env :: c.ack.Acked?
      modifies this
      ensures Follows(cfg, id, ReadAfter(request, sent, rid), sh, env, k)
    {
      hide Solo, Contents, PlanRow.Confirm, GT.AllPresent;
      SoloStep(cfg, id, ReadAfter(request, sent, rid), sh, env, k);
      ghost var (a, t) := StepActor(cfg, id, ReadAfter(request, sent, rid), sh, env[k]);
      var after := env[k].reading;
      if after.None? || !GT.AllPresent(request.tags, after.value.tags) {
        if sent {
          PersistOutcome(cfg, id, OutcomeUnknown, rid, t, env, k + 1);
        } else {
          FailGovernedPlan(cfg, id, t, env, k + 1);
        }
        return;
      }
      SoloStep(cfg, id, a, t, env, k + 1);
      ConfirmFences(t.row, sent, env[k + 1].now);
      var count := Confirm(sent, env[k + 1].now);
      if count == 1 {
        SoloEnds(cfg, id, StepActor(cfg, id, a, t, env[k + 1]).1, env, k + 2);
      } else if sent {
        PersistOutcome(cfg, id, OutcomeUnknown, rid, t, env, k + 2);
      } else {
        FailGovernedPlan(cfg, id, t, env, k + 2);
      }
    }

    /** The provider call and what follows it, once the barrier holds. */
    method SendAndVerify(cfg: Config, ghost id: nat, request: Request, ghost sh: Shared, env: seq<Choice>, k: nat)
      requires Contents() == sh.row && k + 6 <= |env| && forall c | c in env :: c.ack.Acked?
      modifies this
      ensures Follows(cfg, id, Send(request), sh, env, k)
    {
      hide Solo, Contents, PlanRow.RecordRequestId;
      SoloStep(cfg, id, Send(request), sh, env, k);
      ghost var sent := sh.(sends := sh.sends + [request], responses := sh.responses + [env[k].response]);
      match env[k].response {
        case Rejected(rid) => PersistOutcome(cfg, id, ConfirmedFailed, rid, sent, env, k + 1);
        case Unclear(rid) => PersistOutcome(cfg, id, OutcomeUnknown, rid, sent, env, k + 1);
        case Accepted(None) => VerifyAndConfirm(cfg, id, request, true, None, sent, env, k + 1);
        case Accepted(Some(rid)) =>
          RecordFences(sent.row, rid);
          SoloStep(cfg, id, RecordId(request, rid), sent, env, k + 1);
          var count := RecordRequestId(rid);
          ghost var recorded := StepActor(cfg, id, RecordId(request, rid), sent, env[k + 1]).1;
          if count == 1 {
            VerifyAndConfirm(cfg, id, request, true, Some(rid), recorded, env, k + 2);
            return;
          }
          SoloStep(cfg, id, Recheck(request, rid), sent, env, k + 2);
          var persisted := Contents();
          if persisted.providerId != Some(rid) || persisted.awsId != Some(rid) {
            PersistOutcome(cfg, id, OutcomeUnknown, Some(rid), sent, env, k + 3);
          } else {
            VerifyAndConfirm(cfg, id, request, true, Some(rid), sent, env, k + 3);
          }
      }
    }

    /** `executeGovernedEc2Tagging` on the snapshot the claim was decided on. */
    method ExecuteGovernedEc2Tagging(cfg: Config, ghost id: nat, key: Text, snapshot: Row, at: int, ghost sh: Shared,
      env: seq<Choice>, k: nat)
      requires Contents() == sh.row && k + 8 <= |env| && forall c | c in env :: c.ack.Acked?
      modifies this
      ensures Follows(cfg, id, Inspect(key, snapshot, at), sh, env, k)
    {
      hide Solo, Contents, PlanRow.RecordAttempt, GT.AllPresent;
      SoloStep(cfg, id, Inspect(key, snapshot, at), sh, env, k);
      var before := env[k].seen;
      if before.None? {
        FailGovernedPlan(cfg, id, sh, env, k + 1);
        return;
      }
      match cfg.decide(snapshot.plan, before.value) {
        case Refuse(_) => FailGovernedPlan(cfg, id, sh, env, k + 1);
        case Throw =>
          if env[k].rethrow {
            SoloEnds(cfg, id, sh, env, k + 1);
          } else {
            FailGovernedPlan(cfg, id, sh, env, k + 1);
          }
        case Proceed(tags, _, target) =>
          var request := Request(snapshot.plan, before.value, tags, target, key, at);
          if GT.AllPresent(tags, before.value.tags) {
            VerifyAndConfirm(cfg, id, request, false, None, sh, env, k + 1);
            return;
          }
          SoloStep(cfg, id, Barrier(request), sh, env, k + 1);
          AttemptFences(sh.row, env[k + 1].now);
          var barrier := RecordAttempt(env[k + 1].now);
          ghost var (b, t) := StepActor(cfg, id, Barrier(request), sh, env[k + 1]);
          if barrier != 1 {
            FailGovernedPlan(cfg, id, t, env, k + 2);
          } else {
            SendAndVerify(cfg, id, request, t, env, k + 2);
          }
      }
    }

    /**
      `processGovernedAwsChangeJob`: a delivery left alone. The answers `env` are those
      of the database clock, the environment and the provider, in the order asked.
    */
    method ProcessGovernedAwsChangeJob(cfg: Config, ghost id: nat, key: Text, ghost sh: Shared, env: seq<Choice>)
      requires Contents() == sh.row && |env| == 11 && forall c | c in env :: c.ack.Acked?
      modifies this
      ensures Follows(cfg, id, Lookup(key), sh, env, 0)
    {
      hide Solo, Contents, PlanRow.ClaimExecution;
      SoloStep(cfg, id, Lookup(key), sh, env, 0);
      var existing := Contents();
      if KeyOf(existing) == Some(key) && Settled(existing.lifecycle) {
        if existing.outcome == ConfirmedSucceeded || existing.lifecycle == Succeeded
            || existing.lifecycle == RollbackAvailable {
          SoloEnds(cfg, id, sh, env, 1);
        } else if existing.outcome == Missing || existing.outcome == NotAttempted {
          SoloEnds(cfg, id, sh, env, 1);
        } else {
          Reschedule(cfg, id, existing, sh, env, 1);
        }
        return;
      }
      if env[0].foreignKey {
        SoloEnds(cfg, id, sh, env, 1);
        return;
      }
      SoloStep(cfg, id, Load(key), sh, env, 1);
      var plan := Contents();
      if !Claimable(plan.lifecycle) {
        BlockGovernedPlan(cfg, id, sh, env, 2);
      } else if plan.outcome == Missing {
        FailGovernedPlan(cfg, id, sh, env, 2);
      } else if plan.outcome != NotAttempted {
        Reschedule(cfg, id, plan, sh, env, 2);
      } else if !plan.approvalGranted || (ExpiryOf(plan).Some? && ExpiryOf(plan).value < env[1].now) {
        FailGovernedPlan(cfg, id, sh, env, 2);
      } else if KeyOf(plan) != Some(key) {
        SoloEnds(cfg, id, sh, env, 2);
      } else if !env[1].makerChecker || !cfg.verified(plan.plan, env[1].now) {
        FailGovernedPlan(cfg, id, sh, env, 2);
      } else if !env[1].gateOpen || !cfg.gate(plan.plan) {
        BlockGovernedPlan(cfg, id, sh, env, 2);
      } else {
        ClaimAndExecute(cfg, id, key, plan, sh, env);
      }
    }

    /** The claim, and then the simulated or the real execution. */
    method ClaimAndExecute(cfg: Config, ghost id: nat, key: Text, plan: Row, ghost sh: Shared, env: seq<Choice>)
      requires Contents() == sh.row && |env| == 11 && forall c | c in env :: c.ack.Acked?
      modifies this
      ensures Follows(cfg, id, Claim(key, plan, env[1].now), sh, env, 2)
    {
      hide Solo, Contents, PlanRow.ClaimExecution;
      SoloStep(cfg, id, Claim(key, plan, env[1].now), sh, env, 2);
      ExecutionFences(sh.row, key, env[2].now);
      var updated := ClaimExecution(key, env[2].now);
      ghost var (a, t) := StepActor(cfg, id, Claim(key, plan, env[1].now), sh, env[2]);
      if updated == 0 {
        SoloEnds(cfg, id, sh, env, 3);
      } else if env[2].simulation {
        CompleteSimulation();
        SoloStep(cfg, id, Simulate, t, env, 3);
        SoloEnds(cfg, id, StepSimulate(t, env[3]).1, env, 4);
      } else {
        ExecuteGovernedEc2Tagging(cfg, id, key, plan, env[1].now, t, env, 3);
      }
    }

    method Reschedule(ghost cfg: Config, ghost id: nat, seen: Row, ghost sh: Shared, env: seq<Choice>, k: nat)
      requires Contents() == sh.row && k < |env| && env[k].ack.Acked?
      modifies this
      ensures Follows(cfg, id, Schedule(seen), sh, env, k)
    {
      hide Solo, Contents, PlanRow.ScheduleReconciliation;
      EnsureReconciliationScheduled(seen, env[k].now);
      SoloStep(cfg, id, Schedule(seen), sh, env, k);
      SoloEnds(cfg, id, StepSchedule(seen, sh, env[k]).1, env, k + 1);
    }

    // ----- the reconciler -----

    /**
      `reconcileMutationCandidate`, on the row `seen` that the query returned at `now`;
      `reading` is what the provider shows if it is asked. What the procedure reports
      is what it left in the row, and with nobody else about it is never overtaken.
    */
    method ReconcileMutationCandidate(cfg: Config, seen: Row, now: int, reading: Option<Reading>)
      returns (report: Report)
      modifies this
      ensures Contents() == AfterAttempt(cfg, old(Contents()), seen, now, reading)
      ensures report == NotClaimed <==> PlanRow.ClaimReconciliation(old(Contents()), seen, now, cfg.staleMs).count == 0
      ensures Reported(MaxAttempts(cfg), old(Contents()), Contents(), report)
    {
      hide Contents, StillClaimed, PlanRow.ClaimReconciliation, PlanRow.RetryLater, PlanRow.Resolve, PlanRow.Review;
      var maxAttempts := MaxAttempts(cfg);
      ClaimFences(Contents(), seen, now, cfg.staleMs);
      var count := ClaimReconciliation(seen, now, cfg.staleMs);
      if count != 1 {
        return NotClaimed;
      }
      FenceHolds(Contents(), seen, now);
      if seen.outcome == NotAttempted {
        count := PersistResolution(seen, NotAttempted, now);
        return if count == 1 then Concluded(NotAttempted) else StaleResolution;
      }
      var target := cfg.approvedTarget(seen.plan);
      if target.None? {
        count := PersistManualReview(seen, now);
        return if count == 1 then NeedsReview else StaleResolution;
      }
      if reading.None? {
        if seen.attempts + 1 >= maxAttempts {
          count := PersistManualReview(seen, now);
          return if count == 1 then NeedsReview else StaleResolution;
        }
        count := RetryLater(seen, now);
        return if count == 1 then WillRetry else StaleResolution;
      }
      if reading.value.instanceId != target.value.resourceId {
        count := PersistManualReview(seen, now);
        return if count == 1 then NeedsReview else StaleResolution;
      }
      if !GT.AllPresent(target.value.tags, reading.value.tags) {
        count := PersistManualReview(seen, now);
        return if count == 1 then NeedsReview else StaleResolution;
      }
      count := PersistResolution(seen, ConfirmedSucceeded, now);
      return if count == 1 then Concluded(ConfirmedSucceeded) else StaleResolution;
    }

    /** One round of `runMutationReconciliationBatch`, as far as this row is concerned. */
    method RunRound(cfg: Config, now: int, reading: Option<Reading>) returns (reports: seq<Report>)
      modifies this
      ensures Contents() == AfterRound(cfg, old(Contents()), now, reading)
      ensures if Candidate(old(Contents()), now, cfg.staleMs, MaxAttempts(cfg))
              then |reports| == 1 && reports[0] != NotClaimed
                  && Reported(MaxAttempts(cfg), old(Contents()), Contents(), reports[0])
              else reports == []
    {
      hide Contents, Candidate, Reported, AfterAttempt;
      reports := [];
      var seen := Contents();
      if Candidate(seen, now, cfg.staleMs, MaxAttempts(cfg)) {
        CandidateIsClaimed(seen, now, cfg.staleMs, MaxAttempts(cfg));
        var report := ReconcileMutationCandidate(cfg, seen, now, reading);
        reports := [report];
      }
    }
  }

  // ----- what a reconciliation leaves in the row -----

  function AfterReading(cfg: Config, r: Row, seen: Row, target: Target, now: int, reading: Option<Reading>): Row {
    if reading.None? then
      if seen.attempts + 1 >= MaxAttempts(cfg) then Review(r, seen, now).row else RetryLater(r, seen, now).row
    else if reading.value.instanceId != target.resourceId || !GT.AllPresent(target.tags, reading.value.tags) then
      Review(r, seen, now).row
    else Resolve(r, seen, ConfirmedSucceeded, now).row
  }

  function AfterAttempt(cfg: Config, r: Row, seen: Row, now: int, reading: Option<Reading>): Row {
    var claim := ClaimReconciliation(r, seen, now, cfg.staleMs);
    if claim.count == 0 then r
    else if seen.outcome == NotAttempted then Resolve(claim.row, seen, NotAttempted, now).row
    else
      match cfg.approvedTarget(seen.plan)
      case None => Review(claim.row, seen, now).row
      case Some(target) => AfterReading(cfg, claim.row, seen, target, now, reading)
  }

  function AfterRound(cfg: Config, r: Row, now: int, reading: Option<Reading>): Row {
    if Candidate(r, now, cfg.staleMs, MaxAttempts(cfg)) then AfterAttempt(cfg, r, r, now, reading) else r
  }

  /** What a report says about the row. */
  predicate Reported(maxAttempts: int, before: Row, after: Row, report: Report) {
    match report
    case NotClaimed => after == before
    case StaleResolution => false
    case WillRetry => after.status == FailedRetryable && after.attempts == before.attempts + 1 < maxAttempts
    case Concluded(o) => after.status == Resolved && after.outcome == o
    case NeedsReview => after.status == ManualReview && after.outcome == ManualReviewRequired
  }

  lemma ConfirmFences(r: Row, sent: bool, now: int)
    ensures var w := Confirm(r, sent, now); w.count == 1 || w == Write(r, 0)
  {}

  lemma RecordFences(r: Row, id: Text)
    ensures var w := RecordRequestId(r, id); w.count == 1 || w == Write(r, 0)
  {}

  lemma AttemptFences(r: Row, now: int)
    ensures var w := RecordAttempt(r, now); w.count == 1 || w == Write(r, 0)
  {}

  lemma ExecutionFences(r: Row, key: Text, now: int)
    ensures var w := ClaimExecution(r, key, now); w.count == 1 || w == Write(r, 0)
  {}

  lemma ClaimFences(r: Row, seen: Row, now: int, staleMs: int)
    ensures var w := ClaimReconciliation(r, seen, now, staleMs);
            if w.count == 1 then StillClaimed(w.row, seen) && w.row.attempts == r.attempts + 1 == seen.attempts + 1
            else w == Write(r, 0)
  {}

  /** The three writes of a claimant whose fence holds. */
  lemma FenceHolds(r: Row, seen: Row, now: int)
    requires StillClaimed(r, seen)
    ensures var w := RetryLater(r, seen, now);
            w.count == 1 && w.row.status == FailedRetryable && w.row.attempts == r.attempts
    ensures var w := Review(r, seen, now);
            w.count == 1 && w.row.status == ManualReview && w.row.outcome == ManualReviewRequired
    ensures forall o :: Resolve(r, seen, o, now).count == 1 && Resolve(r, seen, o, now).row.status == Resolved
                        && Resolve(r, seen, o, now).row.outcome == o
  {
    hide RetryDelay;
  }

  /** Whatever the query returns can be claimed. */
  lemma CandidateIsClaimed(r: Row, now: int, staleMs: int, maxAttempts: int)
    requires Candidate(r, now, staleMs, maxAttempts)
    ensures ClaimReconciliation(r, r, now, staleMs).count == 1
  {}
}
