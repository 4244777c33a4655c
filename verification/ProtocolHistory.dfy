/**
  What every step of worker and reconciler keeps: outcomes only move forward, request
  ids are written once, and a reconciler's claim fences off everybody else's. Simulating
  a plan again starts its record anew, and the invariant says exactly what survives it.
*/
module ProtocolHistory {
  import opened Wrappers
  import opened PlanRow
  import opened Protocol
  import opened ProtocolCore
  import GT = GovernedTagging

  /** The outcome changes that are ever written, other than by simulating again. */
  predicate Written(from: Outcome, to: Outcome) {
    || (from == NotAttempted && to == Attempted)
    || (from == Attempted && (to == OutcomeUnknown || to == ManualReviewRequired || IsConfirmed(to)))
    || (from == OutcomeUnknown && (to == ManualReviewRequired || to == ConfirmedSucceeded))
  }

  /** How many changes can lie behind an outcome. */
  function Height(o: Outcome): nat {
    match o
    case Missing => 0
    case NotAttempted => 0
    case Attempted => 1
    case OutcomeUnknown => 2
    case _ => 3
  }

  /** The outcomes a plan has had: each follows the one before, but for a last one that forgets the rest. */
  ghost predicate OutcomesInv(outcomes: seq<Outcome>, outcome: Outcome, forgotten: bool) {
    && outcomes != [] && outcomes[0] == NotAttempted && outcomes[|outcomes| - 1] == outcome
    && (forall i | 0 <= i < |outcomes| - 1 ::
        Written(outcomes[i], outcomes[i + 1]) || (forgotten && i == |outcomes| - 2))
    && |outcomes| <= if forgotten then 5 else Height(outcome) + 1
  }

  ghost predicate HistoryInv(sh: Shared) {
    && OutcomesInv(sh.outcomes, sh.row.outcome, sh.forgotten)
    && (sh.forgotten ==> sh.barriers != [] && sh.row.outcome == NotAttempted)
    && (sh.barriers != [] && !sh.forgotten ==> Height(sh.row.outcome) >= 1)
    && (sh.barriers == [] ==> sh.row.outcome == NotAttempted && sh.row.providerId.None? && sh.row.awsId.None?)
    && (if sh.forgotten then sh.row.providerId.None? else sh.row.providerId == sh.row.awsId)
    && |sh.reconClaims| == sh.resetClaims + sh.row.attempts
    && sh.resetStamp <= sh.stamp && sh.claimStamp <= sh.stamp
    && (sh.row.status == InProgress ==> sh.stamp == sh.claimStamp > sh.resetStamp)
    && (sh.resetStamp > 0 && sh.row.outcome == NotAttempted ==> sh.row.status == NotRequired)
  }

  /** A reconciler that has claimed an attempt. */
  predicate HasClaimed(a: Actor) {
    a.Observe? || a.Retry? || a.ResolveAs? || a.ReviewBy?
  }

  /** A reconciler saw an attempt that was not resolved only if there was one. */
  ghost predicate SnapshotInv(a: Actor, sh: Shared) {
    (HasClaimed(a) || a.ClaimAttempt?) && a.snapshot.outcome != NotAttempted ==> sh.barriers != []
  }

  /**
    The claim is on record, and as long as nothing was written since, the row is still
    claimed. A claim made before the plan was simulated again has lost its number.
  */
  ghost predicate ClaimInv(id: nat, a: Actor, sh: Shared) {
    SnapshotInv(a, sh)
    && (HasClaimed(a) ==>
          && 0 < a.stamp <= sh.stamp
          && (a.stamp == sh.stamp ==> StillClaimed(sh.row, a.snapshot))
          && (if a.stamp > sh.resetStamp then CurrentClaim(id, a, sh)
              else a.snapshot.outcome != NotAttempted ==> sh.forgotten))
  }

  /** A claim made since the plan was last simulated. */
  ghost predicate CurrentClaim(id: nat, a: Actor, sh: Shared)
    requires HasClaimed(a)
  {
    var position := sh.resetClaims + a.snapshot.attempts;
    && position < |sh.reconClaims| && sh.reconClaims[position] == id
    && (|sh.reconClaims| == position + 1 ==> sh.claimStamp == a.stamp)
  }

  ghost predicate StrictInv(s: State) {
    HistoryInv(s.shared) && forall id | 0 <= id < |s.actors| :: ClaimInv(id, s.actors[id], s.shared)
  }

  /** How a step, or a route that does not simulate the plan again, may change the record. */
  ghost predicate Forward(before: Shared, after: Shared) {
    && (after.row.outcome == before.row.outcome || Written(before.row.outcome, after.row.outcome))
    && (before.row.providerId.Some? ==> after.row.providerId == before.row.providerId)
    && (before.row.awsId.Some? ==> after.row.awsId == before.row.awsId)
    && (after.reconClaims == before.reconClaims
        || (|after.reconClaims| == |before.reconClaims| + 1 && before.reconClaims <= after.reconClaims))
    && (after.stamp == before.stamp ==>
          && after.row.outcome == before.row.outcome && after.row.status == before.row.status
          && after.row.attempts == before.row.attempts && after.claimStamp == before.claimStamp
          && after.reconClaims == before.reconClaims)
    && (after.reconClaims == before.reconClaims ==> after.claimStamp == before.claimStamp)
    && before.stamp <= after.stamp && before.barriers <= after.barriers
    && after.resetStamp == before.resetStamp && after.resetClaims == before.resetClaims
        && after.forgotten == before.forgotten
  }

  ghost predicate Advanced(id: nat, before: Shared, next: (Actor, Shared)) {
    HistoryInv(next.1) && ClaimInv(id, next.0, next.1) && Forward(before, next.1)
  }

  /** What a step may rely on. */
  ghost predicate Ready(cfg: Config, id: nat, a: Actor, sh: Shared) {
    SharedInv(cfg, sh) && ActorInv(cfg, id, a, sh) && HistoryInv(sh) && ClaimInv(id, a, sh)
  }

  // ----- the outcomes -----

  /** One more outcome at the end of the record. */
  lemma RecordOutcome(outcomes: seq<Outcome>, from: Outcome, to: Outcome, forgotten: bool)
    requires OutcomesInv(outcomes, from, forgotten) && (to == from || (Written(from, to) && !forgotten))
    ensures OutcomesInv(if to == from then outcomes else outcomes + [to], to, forgotten)
  {
    if to != from {
      var after := outcomes + [to];
      forall i | 0 <= i < |after| - 1 ensures Written(after[i], after[i + 1]) {
        if i < |outcomes| - 1 {
          assert after[i] == outcomes[i] && after[i + 1] == outcomes[i + 1];
        }
      }
    }
  }

  /** A plan that is simulated again. */
  lemma ForgetOutcomes(outcomes: seq<Outcome>, from: Outcome, forgotten: bool)
    requires OutcomesInv(outcomes, from, forgotten) && (forgotten ==> from == NotAttempted)
    ensures var after := if from == NotAttempted then outcomes else outcomes + [NotAttempted];
            OutcomesInv(after, NotAttempted, forgotten || from != NotAttempted)
  {
    if from != NotAttempted {
      var after := outcomes + [NotAttempted];
      forall i | 0 <= i < |after| - 2 ensures Written(after[i], after[i + 1]) {
        assert after[i] == outcomes[i] && after[i + 1] == outcomes[i + 1];
      }
    }
  }

  /** A write that leaves outcome, status, attempts and request ids alone changes no record. */
  lemma PutAdvances(id: nat, sh: Shared, next: (Actor, Shared))
    requires HistoryInv(sh) && !HasClaimed(next.0) && SnapshotInv(next.0, sh)
    requires next.1.(row := sh.row, claimWins := sh.claimWins, sends := sh.sends, responses := sh.responses,
               readings := sh.readings) == sh
    requires next.1.row.outcome == sh.row.outcome && next.1.row.status == sh.row.status
    requires next.1.row.attempts == sh.row.attempts && next.1.row.providerId == sh.row.providerId
    requires next.1.row.awsId == sh.row.awsId
    ensures Advanced(id, sh, next)
  {
    hide OutcomesInv;
  }

  /** A write of outcome or status by an actor that is then done with the row. */
  lemma MarkAdvances(id: nat, sh: Shared, row: Row, next: (Actor, Shared))
    requires HistoryInv(sh) && !HasClaimed(next.0) && !next.0.ClaimAttempt?
    requires next.1.(barriers := sh.barriers, attempt := sh.attempt, confirmation := sh.confirmation)
        == PutMarked(sh, row)
    requires sh.barriers <= next.1.barriers && (row.outcome != NotAttempted ==> next.1.barriers != [])
    requires next.1.barriers != [] && row.outcome == NotAttempted ==> sh.forgotten
    requires row.outcome == sh.row.outcome || (Written(sh.row.outcome, row.outcome) && !sh.forgotten)
    requires row.status != InProgress && row.attempts == sh.row.attempts
    requires sh.resetStamp > 0 && row.outcome == NotAttempted ==> row.status == NotRequired
    requires IdsKept(sh, row)
    ensures Advanced(id, sh, next)
  {
    hide OutcomesInv, Written;
    RecordOutcome(sh.outcomes, sh.row.outcome, row.outcome, sh.forgotten);
    WrittenRises(sh.row.outcome, row.outcome);
  }

  lemma WrittenRises(from: Outcome, to: Outcome)
    ensures Written(from, to) ==> Height(to) >= 1 && from != to && to != NotAttempted
  {}

  /** The request ids as a write may leave them. */
  ghost predicate IdsKept(sh: Shared, row: Row) {
    && (sh.row.providerId.Some? ==> row.providerId == sh.row.providerId)
    && (sh.row.awsId.Some? ==> row.awsId == sh.row.awsId)
    && (row.providerId != sh.row.providerId || row.awsId != sh.row.awsId ==>
          !sh.forgotten && sh.barriers != [] && row.providerId == row.awsId)
  }

  // ----- one step of one actor -----

  lemma OutcomeNeedsBarrier(sh: Shared)
    requires HistoryInv(sh)
    ensures sh.row.outcome != NotAttempted ==> sh.barriers != []
  {}

  lemma ReadingSteps(cfg: Config, id: nat, a: Actor, sh: Shared, c: Choice)
    requires Ready(cfg, id, a, sh) && (a.Lookup? || a.Load? || a.Query? || a.Recheck? || a.Done?)
    ensures Advanced(id, sh, StepActor(cfg, id, a, sh, c))
  {
    hide HistoryInv, SharedInv, ActorInv, GT.AllPresent, Candidate;
    OutcomeNeedsBarrier(sh);
    PutAdvances(id, sh, StepActor(cfg, id, a, sh, c));
  }

  lemma PlainSteps(cfg: Config, id: nat, a: Actor, sh: Shared, c: Choice)
    requires Ready(cfg, id, a, sh) && (a.Claim? || a.Inspect? || a.Send? || a.ReadAfter? || a.Fail? || a.Block?)
    ensures Advanced(id, sh, StepActor(cfg, id, a, sh, c))
  {
    hide HistoryInv, SharedInv, ActorInv, GT.AllPresent, Candidate;
    PutAdvances(id, sh, StepActor(cfg, id, a, sh, c));
  }

  lemma SimulateStep(cfg: Config, id: nat, a: Actor, sh: Shared, c: Choice)
    requires Ready(cfg, id, a, sh) && a.Simulate?
    ensures Advanced(id, sh, StepActor(cfg, id, a, sh, c))
  {
    hide OutcomesInv, Marked, Recorded;
    var next := StepActor(cfg, id, a, sh, c);
    if c.ack == NoEffect { PutAdvances(id, sh, next); } else { MarkAdvances(id, sh, CompleteSimulation(sh.row), next); }
  }

  lemma BarrierStep(cfg: Config, id: nat, a: Actor, sh: Shared, c: Choice)
    requires Ready(cfg, id, a, sh) && a.Barrier?
    ensures Advanced(id, sh, StepActor(cfg, id, a, sh, c))
  {
    hide OutcomesInv, Marked, Recorded;
    var next, w := StepActor(cfg, id, a, sh, c), RecordAttempt(sh.row, c.now);
    if c.ack == NoEffect || w.count == 0 { PutAdvances(id, sh, next); } else { MarkAdvances(id, sh, w.row, next); }
  }

  lemma RecordIdStep(cfg: Config, id: nat, a: Actor, sh: Shared, c: Choice)
    requires Ready(cfg, id, a, sh) && a.RecordId?
    ensures Advanced(id, sh, StepActor(cfg, id, a, sh, c))
  {
    hide OutcomesInv, Marked, Recorded;
  }

  lemma ConfirmStep(cfg: Config, id: nat, a: Actor, sh: Shared, c: Choice)
    requires Ready(cfg, id, a, sh) && a.ConfirmWrite?
    ensures Advanced(id, sh, StepActor(cfg, id, a, sh, c))
  {
    hide OutcomesInv, Marked, Recorded, GT.AllPresent;
    var next, w := StepActor(cfg, id, a, sh, c), Confirm(sh.row, a.sent, c.now);
    if c.ack == NoEffect || w.count == 0 { PutAdvances(id, sh, next); } else { MarkAdvances(id, sh, w.row, next); }
  }

  lemma PersistStep(cfg: Config, id: nat, a: Actor, sh: Shared, c: Choice)
    requires Ready(cfg, id, a, sh) && a.Persist?
    ensures Advanced(id, sh, StepActor(cfg, id, a, sh, c))
  {
    hide OutcomesInv, Marked, Recorded;
    var next, w := StepActor(cfg, id, a, sh, c), PersistOutcome(sh.row, a.target, a.maybeId, c.now);
    if c.ack == NoEffect || w.count == 0 { PutAdvances(id, sh, next); } else { MarkAdvances(id, sh, w.row, next); }
  }

  lemma ScheduleStep(cfg: Config, id: nat, a: Actor, sh: Shared, c: Choice)
    requires Ready(cfg, id, a, sh) && a.Schedule?
    ensures Advanced(id, sh, StepActor(cfg, id, a, sh, c))
  {
    hide Recorded, OutcomesInv;
    assert ScheduleReconciliation(sh.row, a.snapshot, c.now) == sh.row;
    PutAdvances(id, sh, StepActor(cfg, id, a, sh, c));
  }

  lemma ClaimAttemptStep(cfg: Config, id: nat, a: Actor, sh: Shared, c: Choice)
    requires Ready(cfg, id, a, sh) && a.ClaimAttempt?
    ensures Advanced(id, sh, StepActor(cfg, id, a, sh, c))
  {
    hide OutcomesInv, Marked, SharedInv, ActorInv, LocalInv;
  }

  lemma ObserveStep(cfg: Config, id: nat, a: Actor, sh: Shared, c: Choice)
    requires Ready(cfg, id, a, sh) && a.Observe?
    ensures Advanced(id, sh, StepActor(cfg, id, a, sh, c))
  {
    hide OutcomesInv, SharedInv, ActorInv, GT.AllPresent;
  }

  lemma RetryStep(cfg: Config, id: nat, a: Actor, sh: Shared, c: Choice)
    requires Ready(cfg, id, a, sh) && a.Retry?
    ensures Advanced(id, sh, StepActor(cfg, id, a, sh, c))
  {
    hide OutcomesInv, Marked, Recorded, RetryDelay;
    var next, w := StepActor(cfg, id, a, sh, c), RetryLater(sh.row, a.snapshot, a.at);
    if c.ack == NoEffect || w.count == 0 { PutAdvances(id, sh, next); } else { MarkAdvances(id, sh, w.row, next); }
  }

  lemma ResolveStep(cfg: Config, id: nat, a: Actor, sh: Shared, c: Choice)
    requires Ready(cfg, id, a, sh) && a.ResolveAs?
    ensures Advanced(id, sh, StepActor(cfg, id, a, sh, c))
  {
    hide OutcomesInv, Marked, Recorded, Observed;
    var next, w := StepActor(cfg, id, a, sh, c), PlanRow.Resolve(sh.row, a.snapshot, a.outcome, a.at);
    if c.ack == NoEffect || w.count == 0 { PutAdvances(id, sh, next); } else { MarkAdvances(id, sh, w.row, next); }
  }

  lemma ReviewStep(cfg: Config, id: nat, a: Actor, sh: Shared, c: Choice)
    requires Ready(cfg, id, a, sh) && a.ReviewBy?
    ensures Advanced(id, sh, StepActor(cfg, id, a, sh, c))
  {
    hide OutcomesInv, Marked, Recorded;
    var next, w := StepActor(cfg, id, a, sh, c), PlanRow.Review(sh.row, a.snapshot, a.at);
    if c.ack == NoEffect || w.count == 0 { PutAdvances(id, sh, next); } else { MarkAdvances(id, sh, w.row, next); }
  }

  lemma ActorStepAdvances(cfg: Config, id: nat, a: Actor, sh: Shared, c: Choice)
    requires Ready(cfg, id, a, sh)
    ensures Advanced(id, sh, StepActor(cfg, id, a, sh, c))
  {
    hide *;
    match a {
      case Lookup(_) => ReadingSteps(cfg, id, a, sh, c);
      case Load(_) => ReadingSteps(cfg, id, a, sh, c);
      case Claim(_, _, _) => PlainSteps(cfg, id, a, sh, c);
      case Simulate => SimulateStep(cfg, id, a, sh, c);
      case Inspect(_, _, _) => PlainSteps(cfg, id, a, sh, c);
      case Barrier(_) => BarrierStep(cfg, id, a, sh, c);
      case Send(_) => PlainSteps(cfg, id, a, sh, c);
      case RecordId(_, _) => RecordIdStep(cfg, id, a, sh, c);
      case Recheck(_, _) => ReadingSteps(cfg, id, a, sh, c);
      case ReadAfter(_, _, _) => PlainSteps(cfg, id, a, sh, c);
      case ConfirmWrite(_, _, _, _) => ConfirmStep(cfg, id, a, sh, c);
      case Persist(_, _) => PersistStep(cfg, id, a, sh, c);
      case Fail => PlainSteps(cfg, id, a, sh, c);
      case Block => PlainSteps(cfg, id, a, sh, c);
      case Schedule(_) => ScheduleStep(cfg, id, a, sh, c);
      case Query => ReadingSteps(cfg, id, a, sh, c);
      case ClaimAttempt(_, _) => ClaimAttemptStep(cfg, id, a, sh, c);
      case Observe(_, _, _) => ObserveStep(cfg, id, a, sh, c);
      case Retry(_, _, _) => RetryStep(cfg, id, a, sh, c);
      case ResolveAs(_, _, _, _, _) => ResolveStep(cfg, id, a, sh, c);
      case ReviewBy(_, _, _) => ReviewStep(cfg, id, a, sh, c);
      case Done => ReadingSteps(cfg, id, a, sh, c);
    }
  }

  /** Another actor's claim stays on record, and it is fenced off as soon as anything is written. */
  lemma ClaimsStable(other: nat, b: Actor, before: Shared, after: Shared)
    requires ClaimInv(other, b, before) && Forward(before, after)
    ensures ClaimInv(other, b, after)
  {
    hide Written;
  }

  // ----- events and runs -----

  lemma RouteAdvances(cfg: Config, sh: Shared, w: OutsideWrite)
    requires SharedInv(cfg, sh) && HistoryInv(sh) && !Restarts(sh.row, w)
    ensures HistoryInv(ExecRoute(sh, w)) && Forward(sh, ExecRoute(sh, w))
  {
    hide OutcomesInv, Marked, Recorded;
  }

  /** Simulating again: the outcomes end, the ids part, and no claim made before counts. */
  lemma RestartAdvances(cfg: Config, sh: Shared, w: OutsideWrite)
    requires SharedInv(cfg, sh) && HistoryInv(sh) && Restarts(sh.row, w)
    ensures HistoryInv(ExecRoute(sh, w))
  {
    hide OutcomesInv, Marked, Recorded;
    ForgetOutcomes(sh.outcomes, sh.row.outcome, sh.forgotten);
  }

  lemma ClaimsOutdated(other: nat, b: Actor, sh: Shared, w: OutsideWrite)
    requires ClaimInv(other, b, sh) && Restarts(sh.row, w)
    ensures ClaimInv(other, b, ExecRoute(sh, w))
  {}

  lemma RouteKeepsRecord(cfg: Config, s: State, w: OutsideWrite)
    requires Inv(cfg, s) && StrictInv(s)
    ensures StrictInv(Exec(cfg, s, Route(w)))
    ensures !Restarts(s.shared.row, w) ==> Forward(s.shared, Exec(cfg, s, Route(w)).shared)
  {
    hide SharedInv, ActorInv, HistoryInv, ClaimInv, Forward, ExecRoute, Restarts;
    var after := ExecRoute(s.shared, w);
    if Restarts(s.shared.row, w) {
      RestartAdvances(cfg, s.shared, w);
    } else {
      RouteAdvances(cfg, s.shared, w);
    }
    forall other | 0 <= other < |s.actors| ensures ClaimInv(other, s.actors[other], after) {
      if Restarts(s.shared.row, w) {
        ClaimsOutdated(other, s.actors[other], s.shared, w);
      } else {
        ClaimsStable(other, s.actors[other], s.shared, after);
      }
    }
  }

  lemma EventAdvances(cfg: Config, s: State, e: Event)
    requires Inv(cfg, s) && StrictInv(s)
    ensures StrictInv(Exec(cfg, s, e))
    ensures !(e.Route? && Restarts(s.shared.row, e.write)) ==> Forward(s.shared, Exec(cfg, s, e).shared)
  {
    var t := Exec(cfg, s, e);
    hide SharedInv, ActorInv, HistoryInv, ClaimInv, Forward, StepActor, ExecRoute, Restarts;
    match e {
      case Step(id, c) =>
        if id < |s.actors| {
          ActorStepAdvances(cfg, id, s.actors[id], s.shared, c);
          forall other | 0 <= other < |t.actors| ensures ClaimInv(other, t.actors[other], t.shared) {
            if other != id { ClaimsStable(other, s.actors[other], s.shared, t.shared); }
          }
        } else {
          ForwardReflexive(s.shared);
        }
      case Route(w) =>
        RouteKeepsRecord(cfg, s, w);
      case Crash(id) =>
        ForwardReflexive(s.shared);
        NoClaim(id, Done, s.shared);
      case Deliver(key) =>
        ForwardReflexive(s.shared);
        NoClaim(|s.actors|, Lookup(key), s.shared);
      case StartReconciler =>
        ForwardReflexive(s.shared);
        NoClaim(|s.actors|, Query, s.shared);
    }
  }

  lemma NoClaim(id: nat, a: Actor, sh: Shared)
    requires !HasClaimed(a) && !a.ClaimAttempt?
    ensures ClaimInv(id, a, sh)
  {}

  lemma ForwardReflexive(sh: Shared)
    ensures Forward(sh, sh)
  {}

  lemma {:induction false} RunAdvances(cfg: Config, s: State, events: seq<Event>)
    requires Inv(cfg, s) && StrictInv(s)
    ensures StrictInv(Run(cfg, s, events)) && Inv(cfg, Run(cfg, s, events))
    decreases |events|
  {
    hide Inv, StrictInv, Exec;
    if events != [] {
      var init, last := events[..|events| - 1], events[|events| - 1];
      RunAdvances(cfg, s, init);
      EventAdvances(cfg, Run(cfg, s, init), last);
      EventKeeps(cfg, Run(cfg, s, init), last);
    }
  }

  /** The record is good in every state of every run. */
  lemma StrictAlways(cfg: Config, s: State, events: seq<Event>)
    requires Init(s)
    ensures Inv(cfg, Run(cfg, s, events)) && StrictInv(Run(cfg, s, events))
  {
    InitHolds(cfg, s);
    RunAdvances(cfg, s, events);
  }

  /** A claim is still the current one exactly when nothing was written since. */
  lemma FenceIsStamp(cfg: Config, id: nat, a: Actor, sh: Shared)
    requires Ready(cfg, id, a, sh) && HasClaimed(a)
    ensures StillClaimed(sh.row, a.snapshot) <==> sh.stamp == a.stamp
    ensures sh.stamp == a.stamp ==>
              && sh.reconClaims != [] && sh.reconClaims[|sh.reconClaims| - 1] == id
              && sh.row.attempts == a.snapshot.attempts + 1
  {
    hide OutcomesInv, Recorded, Marked;
  }
}
