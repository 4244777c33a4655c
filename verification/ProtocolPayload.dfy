/**
  The reconciler and the worker look for the same thing. A plan's payload is written by
  simulating the plan, and by nothing else once an approval is bound to it; then the
  payload a reconciler reads is that of the request let past the barrier, however the
  run went.
*/
module ProtocolPayload {
  import opened Wrappers
  import opened PlanRow
  import opened Protocol
  import opened ProtocolCore
  import PF = Preflight
  import GT = GovernedTagging

  predicate SamePayload(p: PF.Plan, q: PF.Plan) {
    p.input.normalizedPayload == q.input.normalizedPayload
  }

  /** Simulating apart, no route rewrites the payload of a plan with a bound approval. */
  predicate KeepsPayload(cfg: Config, s: State, events: seq<Event>)
    decreases |events|
  {
    events == []
    || (&& KeepsPayload(cfg, s, events[..|events| - 1])
        && KeepsPayloadOnce(Run(cfg, s, events[..|events| - 1]).shared.row, events[|events| - 1]))
  }

  predicate KeepsPayloadOnce(r: Row, e: Event) {
    e.Route? && e.write.EditPlan? && Bound(r) ==> SamePayload(e.write.plan, r.plan)
  }

  /** Runs without routes keep it. */
  lemma {:induction false} NoRouteKeepsPayload(cfg: Config, s: State, events: seq<Event>)
    requires forall e | e in events :: !e.Route?
    ensures KeepsPayload(cfg, s, events)
    decreases |events|
  {
    hide Run;
    if events != [] { NoRouteKeepsPayload(cfg, s, events[..|events| - 1]); }
  }

  // ----- the invariant -----

  /** What was attempted has the payload that the row still has. */
  ghost predicate AttemptedPayload(attempt: Option<Request>, plan: PF.Plan) {
    attempt.Some? && SamePayload(attempt.value.plan, plan)
  }

  ghost predicate PayloadInv(sh: Shared) {
    && (sh.row.outcome != NotAttempted ==> AttemptedPayload(sh.attempt, sh.row.plan))
    && (sh.confirmation.Some? && sh.confirmation.value.ByReconciler? ==>
          AttemptedPayload(sh.attempt, sh.confirmation.value.plan))
  }

  ghost predicate ActorPayload(a: Actor, sh: Shared) {
    match a
    case Claim(_, snapshot, _) => Bound(sh.row)
        && (Claimable(sh.row.lifecycle) ==> SamePayload(snapshot.plan, sh.row.plan))
    case Inspect(_, snapshot, _) => sh.row.lifecycle == Executing ==> SamePayload(snapshot.plan, sh.row.plan)
    case Barrier(q) => sh.row.lifecycle == Executing ==> SamePayload(q.plan, sh.row.plan)
    case ClaimAttempt(snapshot, _) => SnapshotPayload(snapshot, sh)
    case Observe(snapshot, _, _) => SnapshotPayload(snapshot, sh)
    case ResolveAs(snapshot, _, _, _, _) => SnapshotPayload(snapshot, sh)
    case _ => true
  }

  ghost predicate SnapshotPayload(snapshot: Row, sh: Shared) {
    snapshot.outcome != NotAttempted ==> AttemptedPayload(sh.attempt, snapshot.plan)
  }

  ghost predicate PayloadsInv(s: State) {
    PayloadInv(s.shared) && forall id | 0 <= id < |s.actors| :: ActorPayload(s.actors[id], s.shared)
  }

  /** What a step may do to what other actors rely on. */
  ghost predicate KeepsOthers(id: nat, before: Shared, after: Shared) {
    && after.row.plan == before.row.plan
    && (after.attempt == before.attempt || before.attempt.None?)
    && (Claimable(after.row.lifecycle) ==> Claimable(before.row.lifecycle))
    && (after.row.lifecycle == Executing && before.row.lifecycle != Executing ==>
          before.claimWins == [] && Claimable(before.row.lifecycle))
  }

  ghost predicate KeptPayload(id: nat, before: Shared, next: (Actor, Shared)) {
    PayloadInv(next.1) && ActorPayload(next.0, next.1) && KeepsOthers(id, before, next.1)
  }

  /** A worker before its first write, or between two. */
  predicate IsReading(a: Actor) {
    a.Lookup? || a.Load? || a.Inspect? || a.Send? || a.Recheck? || a.ReadAfter? || a.Done?
  }

  lemma ReadingKeepsPayload(cfg: Config, id: nat, a: Actor, sh: Shared, c: Choice)
    requires SharedInv(cfg, sh) && PayloadInv(sh) && ActorPayload(a, sh) && IsReading(a)
    ensures KeptPayload(id, sh, StepActor(cfg, id, a, sh, c))
  {
    hide Recorded, Marked, GT.AllPresent, PayloadInv;
    ReadingsDoNotMatter(sh);
  }

  lemma ReadingsDoNotMatter(sh: Shared)
    requires PayloadInv(sh)
    ensures forall sends, responses :: PayloadInv(sh.(sends := sends, responses := responses))
    ensures forall readings :: PayloadInv(sh.(readings := readings))
  {}

  /** The two writes that rely on the payload: the claim and the barrier. */
  lemma ClaimingKeepsPayload(cfg: Config, id: nat, a: Actor, sh: Shared, c: Choice)
    requires SharedInv(cfg, sh) && ActorInv(cfg, id, a, sh) && PayloadInv(sh) && ActorPayload(a, sh)
    requires a.Claim? || a.Barrier?
    ensures KeptPayload(id, sh, StepActor(cfg, id, a, sh, c))
  {
    hide Recorded, Marked, LocalInv, GT.AllPresent, SamePayload;
  }

  predicate IsRecording(a: Actor) {
    a.Simulate? || a.RecordId? || a.Fail? || a.Block? || a.Schedule?
  }

  lemma RecordingKeepsPayload(cfg: Config, id: nat, a: Actor, sh: Shared, c: Choice)
    requires SharedInv(cfg, sh) && ActorInv(cfg, id, a, sh) && PayloadInv(sh) && IsRecording(a)
    ensures KeptPayload(id, sh, StepActor(cfg, id, a, sh, c))
  {
    hide Recorded, Marked, LocalInv, GT.AllPresent, AttemptedPayload, Permits;
  }

  lemma ConcludingKeepsPayload(cfg: Config, id: nat, a: Actor, sh: Shared, c: Choice)
    requires SharedInv(cfg, sh) && ActorInv(cfg, id, a, sh) && PayloadInv(sh) && (a.ConfirmWrite? || a.Persist?)
    ensures KeptPayload(id, sh, StepActor(cfg, id, a, sh, c))
  {
    hide Recorded, Marked, LocalInv, GT.AllPresent, AttemptedPayload, Permits;
  }

  lemma LookingKeepsPayload(cfg: Config, id: nat, a: Actor, sh: Shared, c: Choice)
    requires PayloadInv(sh) && ActorPayload(a, sh) && (a.Query? || a.ClaimAttempt? || a.Observe?)
    ensures KeptPayload(id, sh, StepActor(cfg, id, a, sh, c))
  {
    hide GT.AllPresent, AttemptedPayload, Candidate;
  }

  lemma SettlingKeepsPayload(cfg: Config, id: nat, a: Actor, sh: Shared, c: Choice)
    requires ActorInv(cfg, id, a, sh) && PayloadInv(sh) && ActorPayload(a, sh)
        && (a.Retry? || a.ResolveAs? || a.ReviewBy?)
    ensures KeptPayload(id, sh, StepActor(cfg, id, a, sh, c))
  {
    hide Marked, GT.AllPresent, AttemptedPayload, Observed, RetryDelay;
  }

  lemma StepKeepsPayload(cfg: Config, id: nat, a: Actor, sh: Shared, c: Choice)
    requires SharedInv(cfg, sh) && ActorInv(cfg, id, a, sh) && PayloadInv(sh) && ActorPayload(a, sh)
    ensures KeptPayload(id, sh, StepActor(cfg, id, a, sh, c))
  {
    hide SharedInv, ActorInv, PayloadInv, ActorPayload, KeptPayload, StepActor;
    if IsReading(a) {
      ReadingKeepsPayload(cfg, id, a, sh, c);
    } else if IsRecording(a) {
      RecordingKeepsPayload(cfg, id, a, sh, c);
    } else if a.ConfirmWrite? || a.Persist? {
      ConcludingKeepsPayload(cfg, id, a, sh, c);
    } else if a.Claim? || a.Barrier? {
      ClaimingKeepsPayload(cfg, id, a, sh, c);
    } else if a.Query? || a.ClaimAttempt? || a.Observe? {
      LookingKeepsPayload(cfg, id, a, sh, c);
    } else {
      SettlingKeepsPayload(cfg, id, a, sh, c);
    }
  }

  lemma OthersKeepPayload(cfg: Config, id: nat, other: nat, b: Actor, before: Shared, after: Shared)
    requires other != id && SharedInv(cfg, before) && ActorInv(cfg, other, b, before) && ActorPayload(b, before)
    requires KeepsOthers(id, before, after)
    ensures ActorPayload(b, after)
  {
    hide Recorded, Marked, LocalInv, SamePayload;
  }

  lemma RouteKeepsPayload(cfg: Config, sh: Shared, w: OutsideWrite)
    requires SharedInv(cfg, sh) && PayloadInv(sh) && KeepsPayloadOnce(sh.row, Route(w))
    ensures PayloadInv(ExecRoute(sh, w))
  {
    hide Recorded, Marked;
  }

  lemma RouteKeepsActorPayload(cfg: Config, id: nat, a: Actor, sh: Shared, w: OutsideWrite)
    requires SharedInv(cfg, sh) && ActorInv(cfg, id, a, sh) && ActorPayload(a, sh) && KeepsPayloadOnce(sh.row, Route(w))
    ensures ActorPayload(a, ExecRoute(sh, w))
  {
    hide Recorded, Marked, LocalInv;
  }

  lemma EventKeepsPayload(cfg: Config, s: State, e: Event)
    requires Inv(cfg, s) && PayloadsInv(s) && KeepsPayloadOnce(s.shared.row, e)
    ensures PayloadsInv(Exec(cfg, s, e))
  {
    hide SharedInv, ActorInv, PayloadInv, ActorPayload, KeepsOthers, StepActor, ExecRoute, KeepsPayloadOnce;
    var t := Exec(cfg, s, e);
    match e {
      case Step(id, c) =>
        if id < |s.actors| {
          StepKeepsPayload(cfg, id, s.actors[id], s.shared, c);
          forall other | 0 <= other < |t.actors| ensures ActorPayload(t.actors[other], t.shared) {
            if other != id { OthersKeepPayload(cfg, id, other, s.actors[other], s.shared, t.shared); }
          }
        }
      case Route(w) =>
        RouteKeepsPayload(cfg, s.shared, w);
        forall id | 0 <= id < |t.actors| ensures ActorPayload(t.actors[id], t.shared) {
          RouteKeepsActorPayload(cfg, id, s.actors[id], s.shared, w);
        }
      case Crash(id) => FreshPayload(Done, s.shared);
      case Deliver(key) => FreshPayload(Lookup(key), s.shared);
      case StartReconciler => FreshPayload(Query, s.shared);
    }
  }

  lemma FreshPayload(a: Actor, sh: Shared)
    requires a.Lookup? || a.Query? || a.Done?
    ensures ActorPayload(a, sh)
  {}

  lemma {:induction false} PayloadAlways(cfg: Config, s: State, events: seq<Event>)
    requires Init(s) && KeepsPayload(cfg, s, events)
    ensures Inv(cfg, Run(cfg, s, events)) && PayloadsInv(Run(cfg, s, events))
    decreases |events|
  {
    hide Inv, Exec, KeepsPayloadOnce;
    InvAlways(cfg, s, events);
    if events != [] {
      var front := events[..|events| - 1];
      PayloadAlways(cfg, s, front);
      EventKeepsPayload(cfg, Run(cfg, s, front), events[|events| - 1]);
    }
  }

  /**
    The evidence of a confirmed plan is about the one request let past the barrier: the
    worker's own request, or a plan with the same payload.
  */
  lemma ConfirmationIsAboutAttempt(cfg: Config, s: State, events: seq<Event>)
    requires Init(s) && KeepsPayload(cfg, s, events) && Run(cfg, s, events).shared.row.outcome == ConfirmedSucceeded
    ensures var sh := Run(cfg, s, events).shared;
            && sh.attempt.Some? && Cleared(cfg, sh.attempt.value) && SamePayload(sh.attempt.value.plan, sh.row.plan)
            && sh.confirmation.Some?
            && match sh.confirmation.value
               case BySender(q, _) => q == sh.attempt.value
               case ByReconciler(plan, _, _) => SamePayload(sh.attempt.value.plan, plan)
  {
    hide Run, Marked, Cleared;
    PayloadAlways(cfg, s, events);
  }
}
