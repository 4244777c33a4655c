/**
  The write-ahead barrier is a fence of its own. Even if something outside the
  protocol rewrites the lifecycle and the approval flag at will, so that the plan can
  be claimed again and again, at most one request is sent, as long as no delivery runs
  in simulation mode (whose final write is unguarded) and the plan is not re-simulated.
*/
module ProtocolBarrier {
  import opened PlanRow
  import opened Protocol
  import GT = GovernedTagging

  /** An event of the protocol, or an arbitrary rewrite of what claiming depends on. */
  datatype Tampered = Normal(event: Event) | Rewrite(lifecycle: Lifecycle, approvalGranted: bool)

  function ExecTampered(cfg: Config, s: State, e: Tampered): State {
    match e
    case Normal(event) => Exec(cfg, s, event)
    case Rewrite(lifecycle, granted) =>
      s.(shared := Put(s.shared, s.shared.row.(lifecycle := lifecycle, approvalGranted := granted)))
  }

  function RunTampered(cfg: Config, s: State, events: seq<Tampered>): State
    decreases |events|
  {
    if events == [] then s
    else ExecTampered(cfg, RunTampered(cfg, s, events[..|events| - 1]), events[|events| - 1])
  }

  /** Staging mode, no re-simulation, and no route that resets the outcome of a queued plan. */
  predicate Staging(e: Tampered) {
    match e
    case Normal(Step(_, c)) => !c.simulation
    case Normal(Route(w)) => !w.Resimulate? && !w.EnqueueFailed?
    case _ => true
  }

  ghost predicate BarrierInv(s: State) {
    && BarrierShared(s.shared)
    && forall id | 0 <= id < |s.actors| :: BarrierActor(id, s.actors[id], s.shared)
  }

  ghost predicate BarrierActor(id: nat, a: Actor, sh: Shared) {
    && !a.Simulate?
    && (a.Send? ==> sh.barriers == [id] && sh.sends == [])
    && (a.Persist? ==> a.target == OutcomeUnknown || a.target == ConfirmedFailed)
    && (a.ResolveAs? ==>
          a.outcome == ConfirmedSucceeded || (a.outcome == NotAttempted && a.snapshot.outcome == NotAttempted))
    && ((a.Observe? || a.ReviewBy? || a.Retry? || (a.ResolveAs? && a.outcome == ConfirmedSucceeded)) ==>
          a.snapshot.outcome != NotAttempted)
  }

  ghost predicate BarrierShared(sh: Shared) {
    |sh.sends| <= |sh.barriers| <= 1 && (sh.barriers == [] <==> sh.row.outcome == NotAttempted)
  }

  ghost predicate BarrierStep(id: nat, a: Actor, sh: Shared, next: (Actor, Shared)) {
    && BarrierShared(next.1) && BarrierActor(id, next.0, next.1)
    && (next.1.barriers == sh.barriers || sh.barriers == [])
    && (next.1.sends == sh.sends || a.Send?)
  }

  predicate IsReconciler(a: Actor) {
    a.Query? || a.ClaimAttempt? || a.Observe? || a.Retry? || a.ResolveAs? || a.ReviewBy?
  }

  lemma ReconcilerKeepsBarrier(cfg: Config, id: nat, a: Actor, sh: Shared, c: Choice)
    requires BarrierShared(sh) && BarrierActor(id, a, sh) && IsReconciler(a)
    ensures BarrierStep(id, a, sh, StepActor(cfg, id, a, sh, c))
  {
    hide RetryDelay, GT.AllPresent;
  }

  predicate IsSender(a: Actor) {
    a.Barrier? || a.Send? || a.RecordId? || a.Recheck? || a.ReadAfter? || a.ConfirmWrite? || a.Persist?
  }

  lemma SenderKeepsBarrier(cfg: Config, id: nat, a: Actor, sh: Shared, c: Choice)
    requires BarrierShared(sh) && BarrierActor(id, a, sh) && IsSender(a)
    ensures BarrierStep(id, a, sh, StepActor(cfg, id, a, sh, c))
  {
    hide GT.AllPresent;
  }

  lemma WorkerKeepsBarrier(cfg: Config, id: nat, a: Actor, sh: Shared, c: Choice)
    requires BarrierShared(sh) && BarrierActor(id, a, sh) && !IsReconciler(a) && !IsSender(a) && !c.simulation
    ensures BarrierStep(id, a, sh, StepActor(cfg, id, a, sh, c))
  {
    hide GT.AllPresent;
  }

  /** Only the delivery that gets the barrier through may send, and it sends once. */
  lemma StepKeepsBarrier(cfg: Config, id: nat, a: Actor, sh: Shared, c: Choice)
    requires BarrierShared(sh) && BarrierActor(id, a, sh) && !c.simulation
    ensures BarrierStep(id, a, sh, StepActor(cfg, id, a, sh, c))
  {
    hide BarrierStep, BarrierShared, BarrierActor, StepActor;
    if IsReconciler(a) {
      ReconcilerKeepsBarrier(cfg, id, a, sh, c);
    } else if IsSender(a) {
      SenderKeepsBarrier(cfg, id, a, sh, c);
    } else {
      WorkerKeepsBarrier(cfg, id, a, sh, c);
    }
  }

  lemma EventKeepsBarrier(cfg: Config, s: State, e: Tampered)
    requires BarrierInv(s) && Staging(e)
    ensures BarrierInv(ExecTampered(cfg, s, e))
  {
    hide StepActor;
    var t := ExecTampered(cfg, s, e);
    if e.Normal? && e.event.Step? && e.event.id < |s.actors| {
      var id := e.event.id;
      StepKeepsBarrier(cfg, id, s.actors[id], s.shared, e.event.choice);
      forall other | 0 <= other < |t.actors| && other != id ensures BarrierActor(other, t.actors[other], t.shared) {
        assert BarrierActor(id, s.actors[id], s.shared) && BarrierActor(other, s.actors[other], s.shared);
      }
    }
  }

  lemma {:induction false} RunKeepsBarrier(cfg: Config, s: State, events: seq<Tampered>)
    requires BarrierInv(s) && forall e | e in events :: Staging(e)
    ensures BarrierInv(RunTampered(cfg, s, events))
    decreases |events|
  {
    hide BarrierInv, ExecTampered;
    if events != [] {
      RunKeepsBarrier(cfg, s, events[..|events| - 1]);
      EventKeepsBarrier(cfg, RunTampered(cfg, s, events[..|events| - 1]), events[|events| - 1]);
    }
  }

  /** At most one request, whatever happens to the lifecycle. */
  lemma BarrierAloneSuffices(cfg: Config, s: State, events: seq<Tampered>)
    requires Init(s) && forall e | e in events :: Staging(e)
    ensures |RunTampered(cfg, s, events).shared.sends| <= 1
    ensures RunTampered(cfg, s, events).shared.sends != [] ==>
        RunTampered(cfg, s, events).shared.row.outcome != NotAttempted
  {
    RunKeepsBarrier(cfg, s, events);
  }
}
