/**
  Reconciliation left alone: rounds without crash or interference are runs of the
  protocol, and they settle an unresolved plan within its budget, exactly when there
  is budget left.
*/
module Reconciliation {
  import opened Wrappers
  import opened JsonText
  import opened IsoTime
  import opened PlanRow
  import opened Protocol
  import opened ProtocolCore
  import opened PlanStore
  import D = Delivery
  import PR = ProtocolRows
  import PT = ProtocolTheorems
  import PF = Preflight
  import GT = GovernedTagging

  /** One undisturbed round: when it runs, and what the provider shows if it is asked. */
  datatype Round = Round(now: int, reading: Option<Reading>)

  function Answer(round: Round): Choice {
    Choice(round.now, false, false, false, false, false, None, round.reading, Unclear(None), Acked)
  }

  /** The answers of a round: at most four steps are taken. */
  function Answers(round: Round): seq<Choice> {
    seq(4, _ => Answer(round))
  }

  /** The events of a round by a reconciler that becomes actor number `id`. */
  function RoundEvents(id: nat, round: Round): seq<Event> {
    [StartReconciler] + Steps(id, Answers(round))
  }

  /** A round of the procedure is a run of the system. */
  lemma RoundIsARun(cfg: Config, s: State, round: Round)
    ensures var t := Run(cfg, s, RoundEvents(|s.actors|, round));
            t.shared.row == AfterRound(cfg, s.shared.row, round.now, round.reading) && t.actors == s.actors + [Done]
  {
    hide Solo, StepActor;
    var id, env := |s.actors|, Answers(round);
    StartedAloneIsARun(cfg, s, StartReconciler, env);
    QuerySolo(cfg, id, s.shared, env);
  }

  lemma QuerySolo(cfg: Config, id: nat, sh: Shared, env: seq<Choice>)
    requires |env| == 4 && forall c | c in env :: c.ack.Acked? && c.now == env[0].now && c.reading == env[0].reading
    ensures var end := Solo(cfg, id, Query, sh, env, 0);
            end.0 == Done && end.1.row == AfterRound(cfg, sh.row, env[0].now, env[0].reading)
  {
    hide Solo, Candidate, AfterAttempt;
    SoloStep(cfg, id, Query, sh, env, 0);
    if Candidate(sh.row, env[0].now, cfg.staleMs, MaxAttempts(cfg)) {
      AttemptSolo(cfg, id, sh.row, env[0].now, sh, env);
    } else {
      SoloEnds(cfg, id, sh, env, 1);
    }
  }

  lemma AttemptSolo(cfg: Config, id: nat, seen: Row, now: int, sh: Shared, env: seq<Choice>)
    requires |env| == 4 && forall c | c in env :: c.ack.Acked? && c.reading == env[0].reading
    ensures var end := Solo(cfg, id, ClaimAttempt(seen, now), sh, env, 1);
            end.0 == Done && end.1.row == AfterAttempt(cfg, sh.row, seen, now, env[0].reading)
  {
    hide Solo, PlanRow.ClaimReconciliation, PlanRow.Resolve, PlanRow.Review, AfterReading, StillClaimed, Clamp,
        StepActor;
    var (a, t) := StepClaimAttempt(cfg, id, seen, now, sh, env[1]);
    ClaimFences(sh.row, seen, now, cfg.staleMs);
    ClaimAttemptIsStep(cfg, id, seen, now, sh, env[1]);
    SoloStep(cfg, id, ClaimAttempt(seen, now), sh, env, 1);
    if a.Done? {
      SoloEnds(cfg, id, t, env, 2);
    } else {
      FenceHolds(t.row, seen, now);
      if a.Observe? {
        ObserveSolo(cfg, id, a, t, env);
      } else {
        SettleSolo(cfg, id, a, t, env);
      }
    }
  }

  lemma ClaimAttemptIsStep(cfg: Config, id: nat, seen: Row, now: int, sh: Shared, c: Choice)
    ensures StepActor(cfg, id, ClaimAttempt(seen, now), sh, c) == StepClaimAttempt(cfg, id, seen, now, sh, c)
  {
    hide StepClaimAttempt;
  }

  /** A claimant that knows how to conclude does so at once. */
  lemma SettleSolo(cfg: Config, id: nat, a: Actor, t: Shared, env: seq<Choice>)
    requires (a.ResolveAs? || a.ReviewBy?) && StillClaimed(t.row, a.snapshot)
    requires |env| == 4 && forall c | c in env :: c.ack.Acked?
    ensures var end := Solo(cfg, id, a, t, env, 2);
            end.0 == Done
            && end.1.row == if a.ResolveAs? then PlanRow.Resolve(t.row, a.snapshot, a.outcome, a.at).row
                            else PlanRow.Review(t.row, a.snapshot, a.at).row
  {
    hide Solo, PlanRow.Resolve, PlanRow.Review, StillClaimed, StepLookup, StepLoad, StepClaim, StepInspect, StepBarrier,
         StepSend, StepRecordId, StepRecheck, StepReadAfter, StepConfirm, StepPersist, StepSchedule, StepQuery,
         StepClaimAttempt, StepObserve, StepRetry;
    FenceHolds(t.row, a.snapshot, a.at);
    SoloStep(cfg, id, a, t, env, 2);
    SoloEnds(cfg, id, StepActor(cfg, id, a, t, env[2]).1, env, 3);
  }

  lemma ObserveSolo(cfg: Config, id: nat, a: Actor, t: Shared, env: seq<Choice>)
    requires a.Observe? && StillClaimed(t.row, a.snapshot) && cfg.approvedTarget(a.snapshot.plan).Some?
    requires |env| == 4 && forall c | c in env :: c.ack.Acked? && c.reading == env[0].reading
    ensures var end := Solo(cfg, id, a, t, env, 2);
            end.0 == Done
            && end.1.row == AfterReading(cfg, t.row, a.snapshot, cfg.approvedTarget(a.snapshot.plan).value, a.at,
                env[0].reading)
  {
    hide Solo, StillClaimed, PlanRow.RetryLater, PlanRow.Resolve, PlanRow.Review, GT.AllPresent;
    FenceHolds(t.row, a.snapshot, a.at);
    var (b, u) := StepActor(cfg, id, a, t, env[2]);
    SoloStep(cfg, id, a, t, env, 2);
    SoloStep(cfg, id, b, u, env, 3);
    SoloEnds(cfg, id, StepActor(cfg, id, b, u, env[3]).1, env, 4);
  }

  // ----- rounds until the plan is settled -----

  function AfterRounds(cfg: Config, r: Row, rounds: seq<Round>): Row
    decreases |rounds|
  {
    if rounds == [] then r else AfterRounds(cfg, AfterRound(cfg, r, rounds[0].now, rounds[0].reading), rounds[1..])
  }

  function RoundsEvents(id: nat, rounds: seq<Round>): seq<Event>
    decreases |rounds|
  {
    if rounds == [] then [] else RoundEvents(id, rounds[0]) + RoundsEvents(id + 1, rounds[1..])
  }

  lemma {:induction false} RoundsAreARun(cfg: Config, s: State, rounds: seq<Round>)
    ensures Run(cfg, s, RoundsEvents(|s.actors|, rounds)).shared.row == AfterRounds(cfg, s.shared.row, rounds)
    decreases |rounds|
  {
    hide Exec, AfterRound, RoundEvents;
    if rounds != [] {
      var first, rest := RoundEvents(|s.actors|, rounds[0]), RoundsEvents(|s.actors| + 1, rounds[1..]);
      PT.RunSplits(cfg, s, first, rest);
      RoundIsARun(cfg, s, rounds[0]);
      RoundsAreARun(cfg, Run(cfg, s, first), rounds[1..]);
    }
  }

  /** Each round comes late enough to see the row that the earlier rounds leave. */
  predicate Timely(cfg: Config, r: Row, rounds: seq<Round>)
    decreases |rounds|
  {
    rounds != [] ==>
      && rounds[0].now >= PT.SelectedFrom(r, cfg.staleMs)
      && Timely(cfg, AfterRound(cfg, r, rounds[0].now, rounds[0].reading), rounds[1..])
  }

  predicate IsSettled(r: Row) {
    (r.outcome == ConfirmedSucceeded && r.status == Resolved)
        || (r.outcome == ManualReviewRequired && r.status == ManualReview)
  }

  /** The round settles the row, or it uses up one attempt and leaves a retry within the budget. */
  lemma RoundProgress(cfg: Config, r: Row, round: Round)
    requires IsUnresolved(r.outcome) && Marked(r, MaxAttempts(cfg)) && r.attempts < MaxAttempts(cfg)
    requires round.now >= PT.SelectedFrom(r, cfg.staleMs)
    ensures var after := AfterRound(cfg, r, round.now, round.reading);
            && after.attempts == r.attempts + 1
            && (|| IsSettled(after)
                || (round.reading.None? && after.outcome == r.outcome && after.status == FailedRetryable
                    && Marked(after, MaxAttempts(cfg)) && after.attempts < MaxAttempts(cfg)))
  {
    hide RetryDelay, GT.AllPresent;
  }

  lemma SettledStays(cfg: Config, r: Row, rounds: seq<Round>)
    requires IsSettled(r)
    ensures AfterRounds(cfg, r, rounds) == r
    decreases |rounds|
  {
    if rounds != [] { SettledStays(cfg, r, rounds[1..]); }
  }

  /** Rounds left alone settle the plan by the measure budget minus attempts. */
  lemma {:induction false} UndisturbedRoundsSettle(cfg: Config, r: Row, rounds: seq<Round>)
    requires IsUnresolved(r.outcome) && Marked(r, MaxAttempts(cfg)) && r.attempts < MaxAttempts(cfg)
    requires Timely(cfg, r, rounds) && |rounds| >= MaxAttempts(cfg) - r.attempts
    ensures IsSettled(AfterRounds(cfg, r, rounds)) && AfterRounds(cfg, r, rounds).attempts <= MaxAttempts(cfg)
    decreases |rounds|
  {
    hide AfterRound, Marked, PT.SelectedFrom;
    RoundProgress(cfg, r, rounds[0]);
    var after := AfterRound(cfg, r, rounds[0].now, rounds[0].reading);
    if IsSettled(after) {
      SettledStays(cfg, after, rounds[1..]);
    } else {
      UndisturbedRoundsSettle(cfg, after, rounds[1..]);
    }
  }

  lemma SpentStays(cfg: Config, r: Row, rounds: seq<Round>)
    requires r.attempts >= MaxAttempts(cfg)
    ensures AfterRounds(cfg, r, rounds) == r
    decreases |rounds|
  {
    if rounds != [] { SpentStays(cfg, r, rounds[1..]); }
  }

  /**
    In any reachable state with an unresolved plan, enough timely rounds without crash
    or interference settle it exactly when its budget is not spent.
  */
  lemma SettlesIffBudgetLeft(cfg: Config, s: State, events: seq<Event>, rounds: seq<Round>)
    requires Init(s) && IsUnresolved(Run(cfg, s, events).shared.row.outcome)
    requires Timely(cfg, Run(cfg, s, events).shared.row, rounds) && |rounds| >= MaxAttempts(cfg)
    ensures var t := Run(cfg, s, events);
            var end := Run(cfg, s, events + RoundsEvents(|t.actors|, rounds));
            && (IsSettled(end.shared.row) <==> t.shared.row.attempts < MaxAttempts(cfg))
            && (end.shared.row.outcome == t.shared.row.outcome <==> t.shared.row.attempts >= MaxAttempts(cfg))
  {
    hide Run, Marked, AfterRounds, Timely, RoundsEvents;
    var t := Run(cfg, s, events);
    PT.MarkersAgree(cfg, s, events);
    PT.RunSplits(cfg, s, events, RoundsEvents(|t.actors|, rounds));
    RoundsAreARun(cfg, t, rounds);
    if t.shared.row.attempts < MaxAttempts(cfg) {
      UndisturbedRoundsSettle(cfg, t.shared.row, rounds);
    } else {
      SpentStays(cfg, t.shared.row, rounds);
    }
  }

  /** A reading decides at once: success exactly when it is the approved instance with every requested tag. */
  lemma ReadingDecides(cfg: Config, r: Row, round: Round)
    requires IsUnresolved(r.outcome) && Marked(r, MaxAttempts(cfg)) && r.attempts < MaxAttempts(cfg)
    requires round.now >= PT.SelectedFrom(r, cfg.staleMs) && round.reading.Some?
    ensures var after := AfterRound(cfg, r, round.now, round.reading);
            var target := cfg.approvedTarget(r.plan);
            && IsSettled(after)
            && (after.outcome == ConfirmedSucceeded <==>
                  && target.Some? && round.reading.value.instanceId == target.value.resourceId
                  && GT.AllPresent(target.value.tags, round.reading.value.tags))
  {
    hide RetryDelay, GT.AllPresent;
  }

  // ----- plans that no round reaches any more -----

  /**
    The rows some late enough round selects: those with budget left whose mutation is
    unresolved, or whose execution was claimed and then lost before anything was
    attempted. A reconciler that crashes on such a lost execution leaves IN_PROGRESS,
    and that row is never selected again.
  */
  lemma EventuallySelectedIff(cfg: Config, s: State, events: seq<Event>)
    requires Init(s)
    ensures var r := Run(cfg, s, events).shared.row;
            (exists now :: Candidate(r, now, cfg.staleMs, MaxAttempts(cfg))) <==>
              && r.attempts < MaxAttempts(cfg)
              && (IsUnresolved(r.outcome) || PT.LostExecution(r))
  {
    hide Run;
    PT.MarkersAgree(cfg, s, events);
    var r := Run(cfg, s, events).shared.row;
    if r.attempts < MaxAttempts(cfg) && IsUnresolved(r.outcome) {
      assert Candidate(r, PT.SelectedFrom(r, cfg.staleMs), cfg.staleMs, MaxAttempts(cfg));
    }
    if r.attempts < MaxAttempts(cfg) && PT.LostExecution(r) {
      assert Candidate(r, PT.LostFrom(r, cfg.staleMs), cfg.staleMs, MaxAttempts(cfg));
    }
  }

  /** A round settles a lost execution as failed, with nothing attempted, and no query selects it again. */
  lemma LostIsFailed(cfg: Config, r: Row, round: Round, later: int)
    requires PT.LostExecution(r) && r.attempts < MaxAttempts(cfg) && Marked(r, MaxAttempts(cfg))
    requires round.now >= PT.LostFrom(r, cfg.staleMs)
    ensures var after := AfterRound(cfg, r, round.now, round.reading);
            && after.outcome == NotAttempted && after.lifecycle == Failed && after.status == Resolved
            && !Candidate(after, later, cfg.staleMs, MaxAttempts(cfg))
  {}

  /** A plan that was simulated, approved and queued, about to be executed. */
  function QueuedRow(plan: PF.Plan): Row {
    Row(plan, Queued, true, NotAttempted, NotRequired, 0, None, None, None, None, None, None, None)
  }

  function Untouched(row: Row): State {
    State(Shared(row, [], [], None, [], [], [], [], None, [NotAttempted], 0, 0, 0, 0, false), [])
  }

  /** The plan before an approval is bound to it. */
  function Unbound(plan: PF.Plan): PF.Plan {
    plan.(approvedByRequestId := None, approval := None)
  }

  /** Simulate, request an approval, approve, queue. */
  function RoutesTo(plan: PF.Plan, key: Text, expiresAt: Instant): seq<Event> {
    [Route(Resimulate(false, Unbound(plan), key, expiresAt))] + [Route(RequestApproval)]
    + [Route(Decide(true, plan))] + [Route(Queue(key))]
  }

  /** The routes lead any untouched plan without an approval there. */
  lemma QueuedIsReached(cfg: Config, s: State, plan: PF.Plan, key: Text, expiresAt: Instant)
    requires Init(s) && !Bound(s.shared.row)
    requires plan.approvedByRequestId.Some? && plan.input.idempotencyKey == Some(key)
    requires plan.input.approvalExpiresAt == Some(expiresAt)
    ensures Run(cfg, s, RoutesTo(plan, key, expiresAt)).shared.row == QueuedRow(plan)
    ensures Run(cfg, s, RoutesTo(plan, key, expiresAt)).shared.sends == []
  {
    hide Run;
    var simulate, request := Route(Resimulate(false, Unbound(plan), key, expiresAt)), Route(RequestApproval);
    var decide := Route(Decide(true, plan));
    assert [] + [simulate] == [simulate];
    NoEvents(cfg, s);
    RunOne(cfg, s, [], simulate);
    RunOne(cfg, s, [simulate], request);
    RunOne(cfg, s, [simulate] + [request], decide);
    RunOne(cfg, s, [simulate] + [request] + [decide], Route(Queue(key)));
  }

  /** A request that every check lets through, made before the plan's approval expires. */
  ghost predicate Sendable(cfg: Config, q: Request) {
    && q.plan.approvedByRequestId.Some? && Cleared(cfg, q)
    && (q.plan.input.approvalExpiresAt.Some? ==> q.checkedAt < q.plan.input.approvalExpiresAt.value)
  }

  /** The answers of a delivery whose request goes out: the provider's response, and what it shows afterwards. */
  function Delivered(q: Request, response: Response, reading: Option<Reading>): Choice {
    Choice(q.checkedAt, false, false, true, true, false, Some(q.before), reading, response, Acked)
  }

  /** The row such a delivery leaves behind. */
  function DeliveredRow(q: Request, response: Response, reading: Option<Reading>): Row {
    D.SentRow(QueuedRow(q.plan), q, Delivered(q, response, reading))
  }

  /** A delivery on a queued plan reaches the provider, under any checks that let its request through. */
  lemma DeliverySends(cfg: Config, q: Request, response: Response, reading: Option<Reading>)
    returns (events: seq<Event>)
    requires Sendable(cfg, q)
    ensures Init(Untouched(QueuedRow(q.plan))) && forall e | e in events :: !e.Route?
    ensures var t := Run(cfg, Untouched(QueuedRow(q.plan)), events);
            && t.actors == [Done] && t.shared.sends == [q] && t.shared.responses == [response]
            && t.shared.row == DeliveredRow(q, response, reading)
  {
    hide Solo, Run, Sendable, D.Sends;
    var s, c := Untouched(QueuedRow(q.plan)), Delivered(q, response, reading);
    events := [Deliver(q.key)] + Steps(0, seq(11, _ => c));
    QueuedIsSent(cfg, q, c);
    D.DeliveryIsARun(cfg, s, q.key, c);
    assert [] + [q] == [q] && [] + [response] == [response];
  }

  lemma QueuedIsSent(cfg: Config, q: Request, c: Choice)
    requires Sendable(cfg, q) && c == Delivered(q, c.response, c.reading)
    ensures Init(Untouched(QueuedRow(q.plan)))
    ensures D.Sends(cfg, QueuedRow(q.plan), q.key, c) && D.RequestOf(cfg, QueuedRow(q.plan), q.key, c) == q
  {
    hide GT.AllPresent;
  }

  lemma RunOne(cfg: Config, s: State, events: seq<Event>, e: Event)
    ensures Run(cfg, s, events + [e]) == Exec(cfg, Run(cfg, s, events), e)
  {
    hide Exec;
    assert (events + [e])[..|events|] == events;
  }

  // ----- executions that are lost -----

  /** A delivery that claims and then crashes. */
  function ClaimAndCrash(key: Text, c: Choice): seq<Event> {
    [Deliver(key)] + [Step(0, c)] + [Step(0, c)] + [Step(0, c)] + [Crash(0)]
  }

  /**
    An approved plan whose delivery crashes between the claim and the barrier is lost: it
    stays EXECUTING with nothing attempted, and no query ever selects it.
  */
  lemma LostByCrash(cfg: Config, q: Request) returns (events: seq<Event>)
    requires Sendable(cfg, q)
    ensures Init(Untouched(QueuedRow(q.plan)))
    ensures var r := Run(cfg, Untouched(QueuedRow(q.plan)), events).shared.row;
            && r.lifecycle == Executing && r.outcome == NotAttempted
            && forall later :: !Candidate(r, later, cfg.staleMs, MaxAttempts(cfg))
  {
    hide Run, Sendable, StepActor, D.Sends, Candidate;
    var s, c := Untouched(QueuedRow(q.plan)), Delivered(q, Unclear(None), None);
    events := ClaimAndCrash(q.key, c);
    QueuedIsSent(cfg, q, c);
    QueuedIsClaimed(cfg, q, c);
    NoEvents(cfg, s);
    assert [] + [Deliver(q.key)] == [Deliver(q.key)];
    RunOne(cfg, s, [], Deliver(q.key));
    RunOne(cfg, s, [Deliver(q.key)], Step(0, c));
    RunOne(cfg, s, [Deliver(q.key)] + [Step(0, c)], Step(0, c));
    RunOne(cfg, s, [Deliver(q.key)] + [Step(0, c)] + [Step(0, c)], Step(0, c));
    RunOne(cfg, s, [Deliver(q.key)] + [Step(0, c)] + [Step(0, c)] + [Step(0, c)], Crash(0));
    forall later ensures !Candidate(Run(cfg, s, events).shared.row, later, cfg.staleMs, MaxAttempts(cfg)) {
      PR.SimulatedIsNotSelected(cfg, s, events, later);
    }
  }

  lemma QueuedIsClaimed(cfg: Config, q: Request, c: Choice)
    requires Sendable(cfg, q) && c == Delivered(q, c.response, c.reading)
    ensures var sh := Untouched(QueuedRow(q.plan)).shared;
            && StepActor(cfg, 0, Lookup(q.key), sh, c) == (Load(q.key), sh)
            && StepActor(cfg, 0, Load(q.key), sh, c) == (Claim(q.key, sh.row, q.checkedAt), sh)
            && StepActor(cfg, 0, Claim(q.key, sh.row, q.checkedAt), sh, c)
               == (Inspect(q.key, sh.row, q.checkedAt), D.ClaimedBy(0, sh, q.checkedAt))
  {
    hide GT.AllPresent;
  }

  // ----- attempts that come to nothing -----

  /** An unresolved row whose payload still reads as a target. */
  ghost predicate Retryable(cfg: Config, r: Row) {
    && IsUnresolved(r.outcome) && Marked(r, MaxAttempts(cfg)) && r.attempts < MaxAttempts(cfg)
    && cfg.approvedTarget(r.plan).Some?
  }

  /** A failed reading uses up an attempt and leaves the rest of the row, until the last one. */
  lemma FailedReading(cfg: Config, r: Row, now: int)
    requires Retryable(cfg, r) && r.attempts + 1 < MaxAttempts(cfg) && now >= PT.SelectedFrom(r, cfg.staleMs)
    ensures var after := AfterRound(cfg, r, now, None);
            Retryable(cfg, after) && after.attempts == r.attempts + 1 && after.outcome == r.outcome
  {
    hide RetryDelay;
  }

  /** Readings that keep failing lead to a last attempt. */
  lemma {:induction false} FailUntilLast(cfg: Config, r: Row) returns (rounds: seq<Round>)
    requires Retryable(cfg, r)
    ensures var last := AfterRounds(cfg, r, rounds);
            Retryable(cfg, last) && last.attempts + 1 == MaxAttempts(cfg) && last.outcome == r.outcome
    decreases MaxAttempts(cfg) - r.attempts
  {
    rounds := [];
    if r.attempts + 1 < MaxAttempts(cfg) {
      hide AfterRound, Retryable;
      var round := Round(PT.SelectedFrom(r, cfg.staleMs), None);
      FailedReading(cfg, r, round.now);
      var rest := FailUntilLast(cfg, AfterRound(cfg, r, round.now, None));
      rounds := [round] + rest;
    }
  }

  /** A reconciler that claims and then crashes. */
  function CrashEvents(id: nat, c: Choice): seq<Event> {
    [StartReconciler] + [Step(id, c)] + [Step(id, c)] + [Crash(id)]
  }

  lemma CrashedClaim(cfg: Config, s: State, c: Choice)
    requires c.ack.Acked? && Candidate(s.shared.row, c.now, cfg.staleMs, MaxAttempts(cfg))
    ensures var t := Run(cfg, s, CrashEvents(|s.actors|, c));
            t.shared.row == ClaimReconciliation(s.shared.row, s.shared.row, c.now, cfg.staleMs).row
            && t.shared.sends == s.shared.sends
  {
    hide Run, Candidate, PlanRow.ClaimReconciliation, StepLookup, StepLoad, StepClaim, StepInspect, StepBarrier,
         StepSend, StepRecordId, StepReadAfter, StepConfirm, StepPersist, StepSchedule, StepObserve, StepRetry,
         StepResolve, StepReview;
    var id := |s.actors|;
    RunOne(cfg, s, [], StartReconciler);
    assert [] + [StartReconciler] == [StartReconciler];
    assert Run(cfg, s, []) == s by { NoEvents(cfg, s); }
    RunOne(cfg, s, [StartReconciler], Step(id, c));
    RunOne(cfg, s, [StartReconciler] + [Step(id, c)], Step(id, c));
    RunOne(cfg, s, [StartReconciler] + [Step(id, c)] + [Step(id, c)], Crash(id));
    assert StepActor(cfg, id, Query, s.shared, c) == (ClaimAttempt(s.shared.row, c.now), s.shared);
    CandidateIsClaimed(s.shared.row, c.now, cfg.staleMs, MaxAttempts(cfg));
  }

  lemma NoEvents(cfg: Config, s: State)
    ensures Run(cfg, s, []) == s
  {}

  /**
    A request whose outcome is unknown can be stranded, whatever the budget: readings
    keep failing, the reconciler that claimed the last attempt crashes, the plan stays
    IN_PROGRESS, and no query selects it again.
  */
  lemma StrandedByCrash(cfg: Config, q: Request) returns (events: seq<Event>)
    requires Sendable(cfg, q) && cfg.approvedTarget(q.plan).Some?
    ensures Init(Untouched(QueuedRow(q.plan)))
    ensures var t := Run(cfg, Untouched(QueuedRow(q.plan)), events);
            && t.shared.sends == [q]
            && t.shared.row.outcome == OutcomeUnknown && t.shared.row.status == InProgress
            && forall later :: !Candidate(t.shared.row, later, cfg.staleMs, MaxAttempts(cfg))
  {
    hide Run, Sendable, AfterRounds, Exec;
    var s := Untouched(QueuedRow(q.plan));
    var sending := DeliverySends(cfg, q, Unclear(None), None);
    var t := Run(cfg, s, sending);
    var rounds := FailUntilLast(cfg, t.shared.row);
    var waiting := sending + RoundsEvents(|t.actors|, rounds);
    PT.RunSplits(cfg, s, sending, RoundsEvents(|t.actors|, rounds));
    RoundsAreARun(cfg, t, rounds);
    var u := Run(cfg, s, waiting);
    var c := Answer(Round(PT.SelectedFrom(u.shared.row, cfg.staleMs), None));
    events := waiting + CrashEvents(|u.actors|, c);
    PT.RunSplits(cfg, s, waiting, CrashEvents(|u.actors|, c));
    CrashedClaim(cfg, u, c);
    SentStays(cfg, s, sending, RoundsEvents(|t.actors|, rounds), q);
    LastClaimStrands(cfg, u.shared.row, c.now);
  }

  /** A request on record is the only one in every continuation. */
  lemma SentStays(cfg: Config, s: State, pre: seq<Event>, post: seq<Event>, q: Request)
    requires Init(s) && Run(cfg, s, pre).shared.sends == [q]
    ensures Run(cfg, s, pre + post).shared.sends == [q]
  {
    hide Run, Exec;
    PT.RunSplits(cfg, s, pre, post);
    PT.RunExtends(cfg, s, pre);
    PT.RunExtends(cfg, Run(cfg, s, pre), post);
    PT.AtMostOneSend(cfg, s, pre + post);
  }

  lemma LastClaimStrands(cfg: Config, r: Row, now: int)
    requires Retryable(cfg, r) && r.attempts + 1 == MaxAttempts(cfg) && now == PT.SelectedFrom(r, cfg.staleMs)
    ensures var after := ClaimReconciliation(r, r, now, cfg.staleMs).row;
            && Candidate(r, now, cfg.staleMs, MaxAttempts(cfg))
            && after.outcome == r.outcome && after.status == InProgress
            && forall later :: !Candidate(after, later, cfg.staleMs, MaxAttempts(cfg))
  {}

  /** A request whose outcome is unknown can be confirmed by a later reading. */
  lemma ConfirmedByReading(cfg: Config, q: Request, target: Target, shown: Reading)
    returns (events: seq<Event>)
    requires Sendable(cfg, q) && cfg.approvedTarget(q.plan) == Some(target)
    requires shown.instanceId == target.resourceId && GT.AllPresent(target.tags, shown.tags)
    ensures Init(Untouched(QueuedRow(q.plan))) && forall e | e in events :: !e.Route?
    ensures Run(cfg, Untouched(QueuedRow(q.plan)), events).shared.row.outcome == ConfirmedSucceeded
  {
    hide Run, Sendable, AfterRound, GT.AllPresent, Steps;
    var s := Untouched(QueuedRow(q.plan));
    var sending := DeliverySends(cfg, q, Unclear(None), None);
    var t := Run(cfg, s, sending);
    var round := Round(PT.SelectedFrom(t.shared.row, cfg.staleMs), Some(shown));
    PT.MarkersAgree(cfg, s, sending);
    ReadingDecides(cfg, t.shared.row, round);
    events := sending + RoundEvents(1, round);
    PT.RunSplits(cfg, s, sending, RoundEvents(1, round));
    RoundIsARun(cfg, t, round);
    StepsAreNoRoutes(1, Answers(round));
  }

  lemma StepsAreNoRoutes(id: nat, env: seq<Choice>)
    ensures forall e | e in Steps(id, env) :: !e.Route?
  {}

  /** Re-simulating a plan whose request id is on record leaves that id in one of the two columns only. */
  lemma ResimulationCanSplitIds(cfg: Config, q: Request, id: Text, renewed: Instant) returns (events: seq<Event>)
    requires Sendable(cfg, q)
    ensures Init(Untouched(QueuedRow(q.plan)))
    ensures var r := Run(cfg, Untouched(QueuedRow(q.plan)), events).shared.row;
            r.providerId == None && r.awsId == Some(id)
  {
    hide Run, Sendable;
    var sending := DeliverySends(cfg, q, Accepted(Some(id)), None);
    var again := Route(Resimulate(false, q.plan, q.key, renewed));
    events := sending + [again];
    RunOne(cfg, Untouched(QueuedRow(q.plan)), sending, again);
  }
}
