/**
  The governed-mutation protocol as a transition system: one row, and any number of
  job deliveries and reconcilers, each with its own program counter and its own,
  possibly stale, snapshot of the row.

  A step is one database statement or transaction, or one provider call; an actor can
  crash between any two steps. What a step cannot know (the clock, the provider's
  answer, whether the database acknowledged a write) is a `Choice`, so that a run is
  just a list of events.
*/
module Protocol {
  import opened Wrappers
  import opened JsonText
  import opened PlanRow
  import PF = Preflight
  import GT = GovernedTagging

  /** What the installation fixes: the checks made on snapshots, and the reconciler's limits. */
  datatype Config = Config(
    maxAttempts: int,
    staleMs: int,
    verified: (PF.Plan, int) -> bool,
    gate: PF.Plan -> bool,
    decide: (PF.Plan, PF.Observation) -> PF.Verdict,
    approvedTarget: PF.Plan -> Option<Target>)

  /** What the reconciler looks for: the approved resource and its requested tags. */
  datatype Target = Target(resourceId: Text, tags: seq<GT.Tag>)

  function MaxAttempts(cfg: Config): int {
    Clamp(cfg.maxAttempts)
  }

  /** A request on its way to the provider: what it was decided on, the job's key, and when the plan was checked. */
  datatype Request = Request(
    plan: PF.Plan, before: PF.Observation, tags: seq<GT.Tag>, target: Text, key: Text, checkedAt: int)

  /** One `DescribeInstances` answer. */
  datatype Reading = Reading(instanceId: Text, tags: map<Text, Text>)

  datatype Response = Rejected(id: Option<Text>) | Unclear(id: Option<Text>) | Accepted(id: Option<Text>)

  /** A write can be lost, or take effect without its acknowledgement arriving. */
  datatype Ack = Acked | LostAck | NoEffect

  datatype Choice = Choice(
    now: int,
    simulation: bool,
    foreignKey: bool,      // another plan answers for the idempotency key
    makerChecker: bool,    // creator and approver differ
    gateOpen: bool,        // the environment gates let the plan pass
    rethrow: bool,         // an error ends the job instead of being recorded
    seen: Option<PF.Observation>,
    reading: Option<Reading>,
    response: Response,
    ack: Ack)

  datatype Actor =
    // a delivery of the job
    | Lookup(key: Text)
    | Load(key: Text)
    | Claim(key: Text, snapshot: Row, checkedAt: int)
    | Simulate
    | Inspect(key: Text, snapshot: Row, checkedAt: int)
    | Barrier(request: Request)
    | Send(request: Request)
    | RecordId(request: Request, id: Text)
    | Recheck(request: Request, id: Text)
    | ReadAfter(request: Request, sent: bool, maybeId: Option<Text>)
    | ConfirmWrite(request: Request, sent: bool, maybeId: Option<Text>, found: Reading)
    | Persist(target: Outcome, maybeId: Option<Text>)
    | Fail
    | Block
    | Schedule(snapshot: Row)
    // a reconciler
    | Query
    | ClaimAttempt(snapshot: Row, at: int)
    | Observe(snapshot: Row, at: int, stamp: nat)
    | Retry(snapshot: Row, at: int, stamp: nat)
    | ResolveAs(snapshot: Row, at: int, stamp: nat, outcome: Outcome, evidence: Option<Evidence>)
    | ReviewBy(snapshot: Row, at: int, stamp: nat)
    // finished or crashed
    | Done

  /**
    What a confirmed success rests on: a reading by the worker that sent the request, or
    by a reconciler that looked for what it took to be approved.
  */
  datatype Evidence =
    | BySender(request: Request, reading: Reading)
    | ByReconciler(plan: PF.Plan, target: Target, reading: Reading)

  /** The tags an evidence shows to be there. */
  function TagsOf(e: Evidence): seq<GT.Tag> {
    match e
    case BySender(request, _) => request.tags
    case ByReconciler(_, target, _) => target.tags
  }

  /**
    The row, with the history the theorems speak about: who won a claim, passed the
    barrier or sent a request, the request let past the barrier, what the provider
    answered, which reconciler claimed which attempt, the readings taken, and the
    outcomes the row has had. `stamp`
    counts the writes that set the outcome, the status or the attempt count;
    `claimStamp` is its value right after the latest reconciliation claim.

    Simulating a plan again starts its record anew: `resetStamp` is the stamp right
    after the latest such write, `resetClaims` the number of reconciliation claims
    before it, and `forgotten` says that one of them came after the barrier.
  */
  datatype Shared = Shared(
    row: Row,
    claimWins: seq<nat>,
    barriers: seq<nat>,
    attempt: Option<Request>,
    sends: seq<Request>,
    responses: seq<Response>,
    reconClaims: seq<nat>,
    readings: seq<Reading>,
    confirmation: Option<Evidence>,
    outcomes: seq<Outcome>,
    stamp: nat,
    claimStamp: nat,
    resetStamp: nat,
    resetClaims: nat,
    forgotten: bool)

  datatype State = State(shared: Shared, actors: seq<Actor>)

  // ----- writes to the shared state -----

  /** A write that leaves the outcome, the status and the attempt count alone. */
  function Put(sh: Shared, row: Row): Shared {
    sh.(row := row)
  }

  /** A write that sets the outcome or the status. */
  function PutMarked(sh: Shared, row: Row): Shared {
    sh.(row := row, stamp := sh.stamp + 1,
        outcomes := if row.outcome == sh.row.outcome then sh.outcomes else sh.outcomes + [row.outcome])
  }

  /** A guarded write: nothing happens when the guard matches no row. */
  function PutIf(sh: Shared, w: Write): Shared {
    if w.count == 1 then PutMarked(sh, w.row) else sh
  }

  // ----- the worker -----

  function StepLookup(key: Text, sh: Shared, c: Choice): (Actor, Shared) {
    var r := sh.row;
    if KeyOf(r) == Some(key) && Settled(r.lifecycle) then
      if r.outcome == ConfirmedSucceeded || r.lifecycle == Succeeded || r.lifecycle == RollbackAvailable then (Done, sh)
      else if r.outcome == Missing || r.outcome == NotAttempted then (Done, sh)
      else (Schedule(r), sh)
    else if c.foreignKey then (Done, sh)
    else (Load(key), sh)
  }

  function StepLoad(cfg: Config, key: Text, sh: Shared, c: Choice): (Actor, Shared) {
    var r := sh.row;
    if !Claimable(r.lifecycle) then (Block, sh)
    else if r.outcome == Missing then (Fail, sh)
    else if r.outcome != NotAttempted then (Schedule(r), sh)
    else if !r.approvalGranted then (Fail, sh)
    else if ExpiryOf(r).Some? && ExpiryOf(r).value < c.now then (Fail, sh)
    else if KeyOf(r) != Some(key) then (Done, sh)
    else if !c.makerChecker then (Fail, sh)
    else if !cfg.verified(r.plan, c.now) then (Fail, sh)
    else if !c.gateOpen || !cfg.gate(r.plan) then (Block, sh)
    else (Claim(key, r, c.now), sh)
  }

  function StepClaim(id: nat, key: Text, snapshot: Row, at: int, sh: Shared, c: Choice): (Actor, Shared) {
    var w := ClaimExecution(sh.row, key, c.now);
    if c.ack == NoEffect || w.count == 0 then (Done, sh)
    else
      var won := Put(sh, w.row).(claimWins := sh.claimWins + [id]);
      if c.ack == LostAck then (Done, won)
      else if c.simulation then (Simulate, won)
      else (Inspect(key, snapshot, at), won)
  }

  function StepSimulate(sh: Shared, c: Choice): (Actor, Shared) {
    if c.ack == NoEffect then (Done, sh) else (Done, PutMarked(sh, CompleteSimulation(sh.row)))
  }

  function StepInspect(cfg: Config, key: Text, snapshot: Row, at: int, sh: Shared, c: Choice): (Actor, Shared) {
    if c.seen.None? then (Fail, sh)
    else
      match cfg.decide(snapshot.plan, c.seen.value)
      case Refuse(_) => (Fail, sh)
      case Throw => (if c.rethrow then Done else Fail, sh)
      case Proceed(tags, _, target) =>
        var request := Request(snapshot.plan, c.seen.value, tags, target, key, at);
        if GT.AllPresent(tags, c.seen.value.tags) then (ReadAfter(request, false, None), sh)
        else (Barrier(request), sh)
  }

  function StepBarrier(id: nat, request: Request, sh: Shared, c: Choice): (Actor, Shared) {
    var w := RecordAttempt(sh.row, c.now);
    if c.ack == NoEffect || w.count == 0 then (Fail, sh)
    else
      (if c.ack == LostAck then Fail else Send(request),
       PutMarked(sh, w.row).(barriers := sh.barriers + [id], attempt := Some(request)))
  }

  function StepSend(request: Request, sh: Shared, c: Choice): (Actor, Shared) {
    var sent := sh.(sends := sh.sends + [request], responses := sh.responses + [c.response]);
    match c.response
    case Rejected(id) => (Persist(ConfirmedFailed, id), sent)
    case Unclear(id) => (Persist(OutcomeUnknown, id), sent)
    case Accepted(None) => (ReadAfter(request, true, None), sent)
    case Accepted(Some(id)) => (RecordId(request, id), sent)
  }

  function StepRecordId(request: Request, id: Text, sh: Shared, c: Choice): (Actor, Shared) {
    var w := RecordRequestId(sh.row, id);
    if c.ack == NoEffect then (Persist(OutcomeUnknown, None), sh)
    else
      var after := if w.count == 1 then Put(sh, w.row) else sh;
      if c.ack == LostAck then (Persist(OutcomeUnknown, None), after)
      else if w.count == 1 then (ReadAfter(request, true, Some(id)), after)
      else (Recheck(request, id), after)
  }

  /** A read that fails ends in the outer handler, which does not know the id. */
  function StepRecheck(request: Request, id: Text, sh: Shared, c: Choice): (Actor, Shared) {
    if c.ack != Acked then (Persist(OutcomeUnknown, None), sh)
    else if sh.row.providerId == Some(id) && sh.row.awsId == Some(id) then (ReadAfter(request, true, Some(id)), sh)
    else (Persist(OutcomeUnknown, Some(id)), sh)
  }

  function StepReadAfter(request: Request, sent: bool, id: Option<Text>, sh: Shared, c: Choice): (Actor, Shared) {
    var lost := if sent then Persist(OutcomeUnknown, id) else Fail;
    if c.reading.None? then (lost, sh)
    else
      var after := sh.(readings := sh.readings + [c.reading.value]);
      if GT.AllPresent(request.tags, c.reading.value.tags)
          then (ConfirmWrite(request, sent, id, c.reading.value), after)
      else (lost, after)
  }

  function StepConfirm(request: Request, sent: bool, id: Option<Text>, found: Reading, sh: Shared,
                       c: Choice): (Actor, Shared) {
    var lost := if sent then Persist(OutcomeUnknown, id) else Fail;
    var w := Confirm(sh.row, sent, c.now);
    if c.ack == NoEffect || w.count == 0 then (lost, sh)
    else
      var after := PutMarked(sh, w.row);
      (if c.ack == LostAck then lost else Done,
       if sent then after.(confirmation := Some(BySender(request, found))) else after)
  }

  function StepPersist(target: Outcome, id: Option<Text>, sh: Shared, c: Choice): (Actor, Shared) {
    (Done, if c.ack == NoEffect then sh else PutIf(sh, PersistOutcome(sh.row, target, id, c.now)))
  }

  function StepFail(sh: Shared, c: Choice): (Actor, Shared) {
    (if c.ack == Acked || c.rethrow then Done else Fail, if c.ack == NoEffect then sh else Put(sh, FailPlan(sh.row)))
  }

  function StepBlock(sh: Shared, c: Choice): (Actor, Shared) {
    (Done, if c.ack == NoEffect then sh else Put(sh, BlockPlan(sh.row)))
  }

  function StepSchedule(snapshot: Row, sh: Shared, c: Choice): (Actor, Shared) {
    var row := ScheduleReconciliation(sh.row, snapshot, c.now);
    (Done, if c.ack == NoEffect || row == sh.row then sh else PutMarked(sh, row))
  }

  // ----- the reconciler -----

  function StepQuery(cfg: Config, sh: Shared, c: Choice): (Actor, Shared) {
    if Candidate(sh.row, c.now, cfg.staleMs, MaxAttempts(cfg)) then (ClaimAttempt(sh.row, c.now), sh) else (Done, sh)
  }

  function StepClaimAttempt(cfg: Config, id: nat, snapshot: Row, at: int, sh: Shared, c: Choice): (Actor, Shared) {
    var w := ClaimReconciliation(sh.row, snapshot, at, cfg.staleMs);
    if c.ack == NoEffect || w.count == 0 then (Done, sh)
    else
      var after := PutMarked(sh, w.row).(reconClaims := sh.reconClaims + [id], claimStamp := sh.stamp + 1);
      if c.ack == LostAck then (Done, after)
      else if snapshot.outcome == NotAttempted then (ResolveAs(snapshot, at, sh.stamp + 1, NotAttempted, None), after)
      else if cfg.approvedTarget(snapshot.plan).None? then (ReviewBy(snapshot, at, sh.stamp + 1), after)
      else (Observe(snapshot, at, sh.stamp + 1), after)
  }

  function StepObserve(cfg: Config, snapshot: Row, at: int, stamp: nat, sh: Shared, c: Choice): (Actor, Shared) {
    if c.reading.None? then
      (if snapshot.attempts + 1 >= MaxAttempts(cfg) then ReviewBy(snapshot, at, stamp)
          else Retry(snapshot, at, stamp), sh)
    else
      var after := sh.(readings := sh.readings + [c.reading.value]);
      match cfg.approvedTarget(snapshot.plan)
      case None => (ReviewBy(snapshot, at, stamp), after)
      case Some(target) =>
        if c.reading.value.instanceId != target.resourceId then (ReviewBy(snapshot, at, stamp), after)
        else if !GT.AllPresent(target.tags, c.reading.value.tags) then (ReviewBy(snapshot, at, stamp), after)
        else
          var evidence := ByReconciler(snapshot.plan, target, c.reading.value);
          (ResolveAs(snapshot, at, stamp, ConfirmedSucceeded, Some(evidence)), after)
  }

  function StepRetry(snapshot: Row, at: int, sh: Shared, c: Choice): (Actor, Shared) {
    (Done, if c.ack == NoEffect then sh else PutIf(sh, RetryLater(sh.row, snapshot, at)))
  }

  function StepResolve(snapshot: Row, at: int, outcome: Outcome, evidence: Option<Evidence>, sh: Shared,
                       c: Choice): (Actor, Shared) {
    var w := PlanRow.Resolve(sh.row, snapshot, outcome, at);
    if c.ack == NoEffect || w.count == 0 then (Done, sh)
    else (Done, PutMarked(sh, w.row).(confirmation := if evidence.Some? then evidence else sh.confirmation))
  }

  function StepReview(snapshot: Row, at: int, sh: Shared, c: Choice): (Actor, Shared) {
    (Done, if c.ack == NoEffect then sh else PutIf(sh, PlanRow.Review(sh.row, snapshot, at)))
  }

  // ----- steps, events and runs -----

  function StepActor(cfg: Config, id: nat, a: Actor, sh: Shared, c: Choice): (Actor, Shared) {
    match a
    case Lookup(key) => StepLookup(key, sh, c)
    case Load(key) => StepLoad(cfg, key, sh, c)
    case Claim(key, snapshot, at) => StepClaim(id, key, snapshot, at, sh, c)
    case Simulate => StepSimulate(sh, c)
    case Inspect(key, snapshot, at) => StepInspect(cfg, key, snapshot, at, sh, c)
    case Barrier(request) => StepBarrier(id, request, sh, c)
    case Send(request) => StepSend(request, sh, c)
    case RecordId(request, rid) => StepRecordId(request, rid, sh, c)
    case Recheck(request, rid) => StepRecheck(request, rid, sh, c)
    case ReadAfter(request, sent, rid) => StepReadAfter(request, sent, rid, sh, c)
    case ConfirmWrite(request, sent, rid, found) => StepConfirm(request, sent, rid, found, sh, c)
    case Persist(target, rid) => StepPersist(target, rid, sh, c)
    case Fail => StepFail(sh, c)
    case Block => StepBlock(sh, c)
    case Schedule(snapshot) => StepSchedule(snapshot, sh, c)
    case Query => StepQuery(cfg, sh, c)
    case ClaimAttempt(snapshot, at) => StepClaimAttempt(cfg, id, snapshot, at, sh, c)
    case Observe(snapshot, at, stamp) => StepObserve(cfg, snapshot, at, stamp, sh, c)
    case Retry(snapshot, at, _) => StepRetry(snapshot, at, sh, c)
    case ResolveAs(snapshot, at, _, outcome, evidence) => StepResolve(snapshot, at, outcome, evidence, sh, c)
    case ReviewBy(snapshot, at, _) => StepReview(snapshot, at, sh, c)
    case Done => (Done, sh)
  }

  datatype Event =
    | Deliver(key: Text)
    | StartReconciler
    | Step(id: nat, choice: Choice)
    | Crash(id: nat)
    | Route(write: OutsideWrite)

  /** A re-simulation that takes effect. */
  predicate Restarts(r: Row, w: OutsideWrite) {
    w.Resimulate? && w.plan.approvedByRequestId == r.plan.approvedByRequestId
  }

  function ExecRoute(sh: Shared, w: OutsideWrite): Shared {
    var row := Outside(sh.row, w);
    if Restarts(sh.row, w) then
      PutMarked(sh, row).(
        resetStamp := sh.stamp + 1, resetClaims := |sh.reconClaims|, forgotten := sh.forgotten || sh.barriers != [])
    else if row.outcome != sh.row.outcome then PutMarked(sh, row)
    else Put(sh, row)
  }

  function Exec(cfg: Config, s: State, e: Event): State {
    match e
    case Deliver(key) => s.(actors := s.actors + [Lookup(key)])
    case StartReconciler => s.(actors := s.actors + [Query])
    case Step(id, c) =>
      if id < |s.actors| then
        var (a, sh) := StepActor(cfg, id, s.actors[id], s.shared, c);
        State(sh, s.actors[id := a])
      else s
    case Crash(id) => if id < |s.actors| then s.(actors := s.actors[id := Done]) else s
    case Route(write) => s.(shared := ExecRoute(s.shared, write))
  }

  /** The state a list of events leads to. */
  function Run(cfg: Config, s: State, events: seq<Event>): State
    decreases |events|
  {
    if events == [] then s else Exec(cfg, Run(cfg, s, events[..|events| - 1]), events[|events| - 1])
  }

  /**
    A plan that no worker or reconciler has touched: nothing was attempted, and the
    plan is approved or queued only if an approval is bound to it.
  */
  ghost predicate Init(s: State) {
    var r := s.shared.row;
    && s.actors == []
    && s.shared == Shared(r, [], [], None, [], [], [], [], None, [NotAttempted], 0, 0, 0, 0, false)
    && r.outcome == NotAttempted && (r.status == Unset || r.status == NotRequired) && r.attempts == 0
    && r.attemptedAt.None? && r.confirmedAt.None? && r.providerId.None? && r.awsId.None?
    && (Claimable(r.lifecycle) ==> Bound(r))
  }
}
