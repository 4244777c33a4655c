/**
  What the columns of the row say of each other in every state: the times go with the
  outcome, the lifecycle follows it when it changes, and a plan that was simulated before
  anything was attempted keeps a status under which no query selects it.
*/
module ProtocolRows {
  import opened Wrappers
  import opened PlanRow
  import opened Protocol
  import opened ProtocolCore
  import GT = GovernedTagging

  /** The times go with the outcome; `simulated` says how the plan started. */
  ghost predicate RowInv(r: Row, simulated: bool) {
    && (r.attemptedAt.Some? <==> r.outcome != NotAttempted)
    && (r.confirmedAt.Some? <==> IsConfirmed(r.outcome))
    && (simulated && r.outcome == NotAttempted ==> r.status == NotRequired)
  }

  /** The lifecycle an outcome is written with. */
  predicate GoesWith(l: Lifecycle, o: Outcome) {
    match o
    case Attempted => l == Executing
    case ConfirmedSucceeded => l == RollbackAvailable
    case ConfirmedFailed => l == Failed
    case OutcomeUnknown => l == Failed
    case ManualReviewRequired => l == Failed
    case _ => false
  }

  ghost predicate RowKept(before: Row, after: Row, simulated: bool) {
    && RowInv(after, simulated)
    && (after.outcome != before.outcome ==> GoesWith(after.lifecycle, after.outcome))
  }

  predicate Writes(a: Actor) {
    a.Simulate? || a.Barrier? || a.ConfirmWrite? || a.Persist? || a.Schedule?
  }

  lemma WorkerWrites(cfg: Config, id: nat, a: Actor, sh: Shared, c: Choice, simulated: bool)
    requires SharedInv(cfg, sh) && ActorInv(cfg, id, a, sh) && RowInv(sh.row, simulated) && Writes(a)
    ensures RowKept(sh.row, StepActor(cfg, id, a, sh, c).1.row, simulated)
  {
    hide Recorded, Permits, Cleared, GT.AllPresent;
  }

  predicate Reconciles(a: Actor) {
    a.Retry? || a.ResolveAs? || a.ReviewBy?
  }

  lemma AttemptWrites(cfg: Config, id: nat, a: Actor, sh: Shared, c: Choice, simulated: bool)
    requires ActorInv(cfg, id, a, sh) && RowInv(sh.row, simulated) && a.ClaimAttempt?
    ensures RowKept(sh.row, StepActor(cfg, id, a, sh, c).1.row, simulated)
  {
    hide Marked, RetryDelay;
  }

  lemma ReconcilerWrites(cfg: Config, id: nat, a: Actor, sh: Shared, c: Choice, simulated: bool)
    requires ActorInv(cfg, id, a, sh) && RowInv(sh.row, simulated) && Reconciles(a)
    ensures RowKept(sh.row, StepActor(cfg, id, a, sh, c).1.row, simulated)
  {
    hide Marked, RetryDelay, Observed, StepLookup, StepLoad, StepClaim, StepSimulate, StepInspect, StepBarrier,
         StepSend, StepRecordId, StepRecheck, StepReadAfter, StepConfirm, StepPersist, StepFail, StepBlock,
         StepSchedule, StepQuery, StepClaimAttempt, StepObserve;
  }

  lemma OthersLeaveRow(cfg: Config, id: nat, a: Actor, sh: Shared, c: Choice, simulated: bool)
    requires RowInv(sh.row, simulated) && !Writes(a) && !Reconciles(a) && !a.ClaimAttempt?
    ensures RowKept(sh.row, StepActor(cfg, id, a, sh, c).1.row, simulated)
  {
    hide GT.AllPresent, Candidate;
  }

  lemma StepKeepsRow(cfg: Config, id: nat, a: Actor, sh: Shared, c: Choice, simulated: bool)
    requires SharedInv(cfg, sh) && ActorInv(cfg, id, a, sh) && RowInv(sh.row, simulated)
    ensures RowKept(sh.row, StepActor(cfg, id, a, sh, c).1.row, simulated)
  {
    hide SharedInv, ActorInv, RowInv, RowKept, StepActor;
    if Writes(a) {
      WorkerWrites(cfg, id, a, sh, c, simulated);
    } else if Reconciles(a) {
      ReconcilerWrites(cfg, id, a, sh, c, simulated);
    } else if a.ClaimAttempt? {
      AttemptWrites(cfg, id, a, sh, c, simulated);
    } else {
      OthersLeaveRow(cfg, id, a, sh, c, simulated);
    }
  }

  lemma RouteKeepsRow(cfg: Config, sh: Shared, w: OutsideWrite, simulated: bool)
    requires SharedInv(cfg, sh) && RowInv(sh.row, simulated)
    ensures RowInv(ExecRoute(sh, w).row, simulated)
  {
    hide Recorded;
  }

  lemma EventKeepsRow(cfg: Config, s: State, e: Event, simulated: bool)
    requires Inv(cfg, s) && RowInv(s.shared.row, simulated)
    ensures RowInv(Exec(cfg, s, e).shared.row, simulated)
    ensures e.Step? ==> RowKept(s.shared.row, Exec(cfg, s, e).shared.row, simulated)
  {
    hide SharedInv, ActorInv, RowInv, StepActor, ExecRoute;
    match e {
      case Step(id, c) => if id < |s.actors| { StepKeepsRow(cfg, id, s.actors[id], s.shared, c, simulated); }
      case Route(w) => RouteKeepsRow(cfg, s.shared, w, simulated);
      case _ =>
    }
  }

  lemma {:induction false} RowAlways(cfg: Config, s: State, events: seq<Event>)
    requires Init(s)
    ensures Inv(cfg, Run(cfg, s, events))
    ensures RowInv(Run(cfg, s, events).shared.row, s.shared.row.status == NotRequired)
    decreases |events|
  {
    hide Inv, Exec;
    InvAlways(cfg, s, events);
    if events != [] {
      var front := events[..|events| - 1];
      RowAlways(cfg, s, front);
      EventKeepsRow(cfg, Run(cfg, s, front), events[|events| - 1], s.shared.row.status == NotRequired);
    }
  }

  /**
    In every state of every run the attempt has a time exactly if there was one, and the
    confirmation exactly if the outcome is confirmed; and every step of a worker or a
    reconciler that changes the outcome sets the lifecycle that goes with it.
  */
  lemma TimesAgree(cfg: Config, s: State, events: seq<Event>, e: Event)
    requires Init(s)
    ensures var r := Run(cfg, s, events).shared.row;
            && (r.attemptedAt.Some? <==> r.outcome != NotAttempted)
            && (r.confirmedAt.Some? <==> IsConfirmed(r.outcome))
    ensures var r, after := Run(cfg, s, events).shared.row, Exec(cfg, Run(cfg, s, events), e).shared.row;
            e.Step? && after.outcome != r.outcome ==> GoesWith(after.lifecycle, after.outcome)
  {
    hide Run, Exec, Inv;
    RowAlways(cfg, s, events);
    EventKeepsRow(cfg, Run(cfg, s, events), e, s.shared.row.status == NotRequired);
  }

  /**
    A plan that was simulated starts as NOT_REQUIRED. Then no query ever selects it before
    its barrier: an execution that was claimed and lost stays EXECUTING.
  */
  lemma SimulatedIsNotSelected(cfg: Config, s: State, events: seq<Event>, now: int)
    requires Init(s) && s.shared.row.status == NotRequired
    requires Run(cfg, s, events).shared.row.outcome == NotAttempted
    ensures !Candidate(Run(cfg, s, events).shared.row, now, cfg.staleMs, MaxAttempts(cfg))
  {
    hide Run;
    RowAlways(cfg, s, events);
  }
}
