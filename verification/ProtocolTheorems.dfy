/** The guarantees of the governed-mutation protocol, over every run. */
module ProtocolTheorems {
  import opened Wrappers
  import opened PlanRow
  import opened Protocol
  import opened ProtocolCore
  import opened ProtocolHistory
  import GT = GovernedTagging

  // ----- at most one request -----

  /** However deliveries, reconcilers, crashes and routes interleave, one plan is sent at most once. */
  lemma AtMostOneSend(cfg: Config, s: State, events: seq<Event>)
    requires Init(s)
    ensures |Run(cfg, s, events).shared.sends| <= 1
    ensures |Run(cfg, s, events).shared.barriers| <= 1 && |Run(cfg, s, events).shared.claimWins| <= 1
  {
    InvAlways(cfg, s, events);
  }

  /** Every request that goes out was verified, inspected and decided on its own worker's snapshot. */
  lemma EverySendCleared(cfg: Config, s: State, events: seq<Event>, q: Request)
    requires Init(s) && q in Run(cfg, s, events).shared.sends
    ensures Cleared(cfg, q)
  {
    InvAlways(cfg, s, events);
  }

  lemma {:induction false} RunSplits(cfg: Config, s: State, pre: seq<Event>, post: seq<Event>)
    ensures Run(cfg, s, pre + post) == Run(cfg, Run(cfg, s, pre), post)
    decreases |post|
  {
    hide Exec;
    if post == [] {
      assert pre + post == pre;
    } else {
      var all := pre + post;
      assert all[..|all| - 1] == pre + post[..|post| - 1] && all[|all| - 1] == post[|post| - 1];
      RunSplits(cfg, s, pre, post[..|post| - 1]);
    }
  }

  /** Claims and requests are never forgotten, and a claim belongs to an actor that has started. */
  ghost predicate Extends(before: State, after: State) {
    && before.shared.claimWins <= after.shared.claimWins
    && before.shared.sends <= after.shared.sends
    && |before.actors| <= |after.actors|
  }

  ghost predicate ClaimantsStarted(s: State) {
    forall w | w in s.shared.claimWins :: w < |s.actors|
  }

  lemma StepExtends(cfg: Config, id: nat, a: Actor, sh: Shared, c: Choice)
    ensures var after := StepActor(cfg, id, a, sh, c).1;
            && sh.claimWins <= after.claimWins && sh.sends <= after.sends
            && (after.claimWins == sh.claimWins || after.claimWins == sh.claimWins + [id])
  {}

  lemma EventExtends(cfg: Config, s: State, e: Event)
    requires ClaimantsStarted(s)
    ensures Extends(s, Exec(cfg, s, e)) && ClaimantsStarted(Exec(cfg, s, e))
  {
    if e.Step? && e.id < |s.actors| {
      StepExtends(cfg, e.id, s.actors[e.id], s.shared, e.choice);
    }
  }

  lemma {:induction false} RunExtends(cfg: Config, s: State, events: seq<Event>)
    requires ClaimantsStarted(s)
    ensures Extends(s, Run(cfg, s, events)) && ClaimantsStarted(Run(cfg, s, events))
    decreases |events|
  {
    hide Exec;
    if events != [] {
      RunExtends(cfg, s, events[..|events| - 1]);
      EventExtends(cfg, Run(cfg, s, events[..|events| - 1]), events[|events| - 1]);
    }
  }

  /**
    Once a request is out, nothing sends again, and no delivery that starts later ever
    holds the claim, reaches the barrier or reaches the provider.
  */
  lemma LaterDeliveriesNeverSend(cfg: Config, s: State, pre: seq<Event>, post: seq<Event>, id: nat)
    requires Init(s) && Run(cfg, s, pre).shared.sends != []
    requires |Run(cfg, s, pre).actors| <= id < |Run(cfg, s, pre + post).actors|
    ensures Run(cfg, s, pre + post).shared.sends == Run(cfg, s, pre).shared.sends
    ensures !HoldsClaim(Run(cfg, s, pre + post).actors[id]) && !PassedBarrier(Run(cfg, s, pre + post).actors[id])
  {
    hide Run, Marked, LocalInv;
    var mid, end := Run(cfg, s, pre), Run(cfg, s, pre + post);
    assert ClaimantsStarted(s);
    RunExtends(cfg, s, pre);
    RunSplits(cfg, s, pre, post);
    RunExtends(cfg, mid, post);
    InvAlways(cfg, s, pre);
    InvAlways(cfg, s, pre + post);
    assert ActorInv(cfg, id, end.actors[id], end.shared);
    assert mid.shared.claimWins[0] in mid.shared.claimWins;
  }

  // ----- write-ahead -----

  /** A route simulated the plan again at a time when its barrier had been passed. */
  ghost predicate RestartedAfterBarrier(cfg: Config, s: State, events: seq<Event>) {
    exists i | 0 <= i < |events| ::
      && events[i].Route? && Restarts(Run(cfg, s, events[..i]).shared.row, events[i].write)
      && Run(cfg, s, events[..i]).shared.barriers != []
  }

  lemma EventForgets(cfg: Config, s: State, e: Event)
    ensures Exec(cfg, s, e).shared.forgotten <==>
              s.shared.forgotten || (e.Route? && Restarts(s.shared.row, e.write) && s.shared.barriers != [])
  {
    hide Outside;
  }

  lemma RestartedGrows(cfg: Config, s: State, events: seq<Event>)
    requires events != []
    ensures var front, last := events[..|events| - 1], events[|events| - 1];
            RestartedAfterBarrier(cfg, s, events) <==>
              || RestartedAfterBarrier(cfg, s, front)
              || (last.Route? && Restarts(Run(cfg, s, front).shared.row, last.write)
                  && Run(cfg, s, front).shared.barriers != [])
  {
    hide Run, Restarts;
    var front := events[..|events| - 1];
    assert forall i | 0 <= i < |front| :: front[..i] == events[..i] && front[i] == events[i];
  }

  lemma {:induction false} ForgottenIff(cfg: Config, s: State, events: seq<Event>)
    requires Init(s)
    ensures Run(cfg, s, events).shared.forgotten <==> RestartedAfterBarrier(cfg, s, events)
    decreases |events|
  {
    hide Exec, RestartedAfterBarrier, Restarts;
    if events == [] {
      NotRestarted(cfg, s);
    } else {
      ForgottenIff(cfg, s, events[..|events| - 1]);
      RestartedGrows(cfg, s, events);
      EventForgets(cfg, Run(cfg, s, events[..|events| - 1]), events[|events| - 1]);
    }
  }

  lemma NotRestarted(cfg: Config, s: State)
    ensures !RestartedAfterBarrier(cfg, s, [])
  {}

  /**
    A request on record has its marker: once the barrier is passed, the outcome has left
    NOT_ATTEMPTED, and is back there exactly if the plan was simulated again since.
  */
  lemma WriteAhead(cfg: Config, s: State, events: seq<Event>)
    requires Init(s)
    ensures var sh := Run(cfg, s, events).shared;
            && (sh.sends != [] ==> sh.barriers != [])
            && (sh.barriers != [] ==>
                  sh.row.outcome != Missing
                  && (sh.row.outcome == NotAttempted <==> RestartedAfterBarrier(cfg, s, events)))
            && (sh.barriers == [] ==> sh.row.outcome == NotAttempted)
  {
    hide Run, RestartedAfterBarrier, OutcomesInv;
    StrictAlways(cfg, s, events);
    ForgottenIff(cfg, s, events);
  }

  // ----- outcomes move forward -----

  /** An outcome that is written over another follows the transition table, in one step or several. */
  lemma WrittenInClosure(from: Outcome, to: Outcome)
    requires Written(from, to)
    ensures InClosure(from, to) && Rank(from) < Rank(to)
    ensures InTable(from, to) <==> !(from == Attempted && to == ManualReviewRequired)
  {
    var path := if from == Attempted && to == ManualReviewRequired then [from, OutcomeUnknown, to] else [from, to];
    assert TablePath(path);
  }

  /**
    Every event of every run keeps the outcome or raises its rank along the table, and
    keeps confirmed and manual-review outcomes; only simulating the plan again, if it
    takes effect, starts over.
  */
  lemma OutcomeOnlyRises(cfg: Config, s: State, events: seq<Event>, e: Event)
    requires Init(s)
    ensures var before, after := Run(cfg, s, events).shared.row, Exec(cfg, Run(cfg, s, events), e).shared.row;
            if e.Route? && Restarts(before, e.write) then after.outcome == NotAttempted
            else
              && (before.outcome == after.outcome
                  || (Rank(before.outcome) < Rank(after.outcome) && InClosure(before.outcome, after.outcome)))
              && (IsConfirmed(before.outcome) || before.outcome == ManualReviewRequired ==>
                  after.outcome == before.outcome)
  {
    hide Run, StepActor, InClosure;
    StrictAlways(cfg, s, events);
    var t := Run(cfg, s, events);
    EventAdvances(cfg, t, e);
    var before, after := t.shared.row.outcome, Exec(cfg, t, e).shared.row.outcome;
    if !(e.Route? && Restarts(t.shared.row, e.write)) && before != after { WrittenInClosure(before, after); }
  }

  /**
    A plan changes its outcome at most three times along the table, and at most once
    more, back to NOT_ATTEMPTED for good, when it is simulated again after its barrier.
  */
  lemma AtMostThreeChanges(cfg: Config, s: State, events: seq<Event>)
    requires Init(s)
    ensures var o, restarted := Run(cfg, s, events).shared.outcomes, RestartedAfterBarrier(cfg, s, events);
            && 1 <= |o| <= (if restarted then 5 else 4)
            && o[0] == NotAttempted && o[|o| - 1] == Run(cfg, s, events).shared.row.outcome
            && (forall i | 0 <= i < |o| - 1 :: Written(o[i], o[i + 1]) || (restarted && i == |o| - 2))
            && (restarted ==> o[|o| - 1] == NotAttempted)
  {
    hide Run, RestartedAfterBarrier, Written;
    StrictAlways(cfg, s, events);
    ForgottenIff(cfg, s, events);
  }

  /**
    CONFIRMED_SUCCEEDED rests on a provider reading that shows every tag of the cleared
    request that was sent, or every tag of the approved target on the approved instance.
  */
  lemma SuccessWasObserved(cfg: Config, s: State, events: seq<Event>)
    requires Init(s) && Run(cfg, s, events).shared.row.outcome == ConfirmedSucceeded
    ensures var sh := Run(cfg, s, events).shared;
            && sh.confirmation.Some?
            && sh.confirmation.value.reading in sh.readings
            && match sh.confirmation.value
               case BySender(q, reading) =>
                 q in sh.sends && Cleared(cfg, q) && GT.AllPresent(q.tags, reading.tags)
               case ByReconciler(plan, target, reading) =>
                 && cfg.approvedTarget(plan) == Some(target) && reading.instanceId == target.resourceId
                 && GT.AllPresent(target.tags, reading.tags)
  {
    hide Run, Cleared, GT.AllPresent, Marked;
    InvAlways(cfg, s, events);
  }

  // ----- no unresolved mutation is lost -----

  /** Outcome and reconciliation status go together in every state, re-simulation included. */
  lemma MarkersAgree(cfg: Config, s: State, events: seq<Event>)
    requires Init(s)
    ensures Marked(Run(cfg, s, events).shared.row, MaxAttempts(cfg))
  {
    InvAlways(cfg, s, events);
  }

  function Moment(t: Option<int>): int {
    if t.Some? then t.value else 0
  }

  /** The moment from which the candidate query selects an unresolved row with budget left. */
  function SelectedFrom(r: Row, staleMs: int): int {
    var stale := Moment(r.attemptedAt) + staleMs;
    if r.status == InProgress then Moment(r.lastAt) + staleMs
    else if r.status == FailedRetryable && Moment(r.nextAt) > stale then Moment(r.nextAt)
    else stale
  }

  /**
    While its budget lasts, an unresolved plan is selected at exactly the times from one
    moment on, and never again afterwards.
  */
  lemma UnresolvedIsSelectedIffBudget(cfg: Config, s: State, events: seq<Event>)
    requires Init(s) && IsUnresolved(Run(cfg, s, events).shared.row.outcome)
    ensures var r := Run(cfg, s, events).shared.row;
            && (r.attempts < MaxAttempts(cfg) ==>
                  forall now ::
                    Candidate(r, now, cfg.staleMs, MaxAttempts(cfg)) <==> now >= SelectedFrom(r, cfg.staleMs))
            && (r.attempts >= MaxAttempts(cfg) ==> forall now :: !Candidate(r, now, cfg.staleMs, MaxAttempts(cfg)))
  {
    InvAlways(cfg, s, events);
  }

  /** The moment from which the candidate query selects a lost execution that is due. */
  function LostFrom(r: Row, staleMs: int): int {
    var stale := Moment(r.leaseAt) + staleMs;
    if r.status == FailedRetryable && Moment(r.nextAt) > stale then Moment(r.nextAt) else stale
  }

  /** An execution that was claimed and then lost, under a status the query looks at. */
  predicate LostExecution(r: Row) {
    r.outcome == NotAttempted && r.lifecycle == Executing && r.leaseAt.Some?
    && (r.status == Unset || r.status == Pending || r.status == FailedRetryable)
  }

  /** The same holds of a lost execution; nothing else that was not attempted is ever selected. */
  lemma LostIsSelectedFrom(cfg: Config, s: State, events: seq<Event>, now: int)
    requires Init(s) && Run(cfg, s, events).shared.row.outcome == NotAttempted
    ensures var r := Run(cfg, s, events).shared.row;
            Candidate(r, now, cfg.staleMs, MaxAttempts(cfg)) <==>
              LostExecution(r) && r.attempts < MaxAttempts(cfg) && now >= LostFrom(r, cfg.staleMs)
  {
    InvAlways(cfg, s, events);
  }

  // ----- request ids -----

  /**
    Once set, a request id stays, but for one of the two that simulating the plan again
    clears; so the ids are equal in every state but after such a restart of a plan that
    had one.
  */
  lemma RequestIdsWriteOnce(cfg: Config, s: State, events: seq<Event>, e: Event)
    requires Init(s)
    ensures var before, after := Run(cfg, s, events).shared.row, Exec(cfg, Run(cfg, s, events), e).shared.row;
            && (before.awsId.Some? ==> after.awsId == before.awsId)
            && (before.providerId.Some? && !(e.Route? && Restarts(before, e.write)) ==>
                after.providerId == before.providerId)
            && (before.providerId == before.awsId <==> !RestartedAfterBarrier(cfg, s, events) || before.awsId.None?)
  {
    hide Run, RestartedAfterBarrier, StepActor, OutcomesInv;
    StrictAlways(cfg, s, events);
    ForgottenIff(cfg, s, events);
    EventAdvances(cfg, Run(cfg, s, events), e);
  }

  /** Simulating again keeps the ids equal exactly when there was none yet: it clears one of the two. */
  lemma ResimulationSplitsIds(cfg: Config, s: State, events: seq<Event>, w: OutsideWrite)
    requires Init(s) && Restarts(Run(cfg, s, events).shared.row, w)
    ensures var before := Run(cfg, s, events).shared.row;
            var after := Exec(cfg, Run(cfg, s, events), Route(w)).shared.row;
            after.providerId == after.awsId <==> before.awsId.None?
  {
    StrictAlways(cfg, s, events);
  }

  // ----- fencing -----

  /** No two reconcilers hold the same attempt number, counting since the plan was last simulated. */
  lemma AttemptsAreExclusive(cfg: Config, s: State, events: seq<Event>, i: nat, j: nat)
    requires Init(s) && i < j < |Run(cfg, s, events).actors|
    requires HasClaimed(Run(cfg, s, events).actors[i]) && HasClaimed(Run(cfg, s, events).actors[j])
    requires Run(cfg, s, events).actors[i].stamp > Run(cfg, s, events).shared.resetStamp
    requires Run(cfg, s, events).actors[j].stamp > Run(cfg, s, events).shared.resetStamp
    ensures Run(cfg, s, events).actors[i].snapshot.attempts != Run(cfg, s, events).actors[j].snapshot.attempts
  {
    hide Run, Init, Inv, HistoryInv, SnapshotInv, StillClaimed;
    StrictAlways(cfg, s, events);
    var t := Run(cfg, s, events);
    assert ClaimInv(i, t.actors[i], t.shared) && ClaimInv(j, t.actors[j], t.shared);
  }

  /** The reconciler's three fenced writes change the row exactly when the fence holds. */
  lemma FencedRow(cfg: Config, id: nat, a: Actor, sh: Shared, c: Choice)
    requires a.Retry? || a.ResolveAs? || a.ReviewBy?
    ensures StepActor(cfg, id, a, sh, c).1.row != sh.row <==> c.ack != NoEffect && StillClaimed(sh.row, a.snapshot)
  {
    hide RetryDelay;
    var after := StepActor(cfg, id, a, sh, c).1.row;
    if StillClaimed(sh.row, a.snapshot) && c.ack != NoEffect {
      assert after.status != InProgress;
    } else {
      assert after == sh.row;
    }
  }

  /**
    A reconciler's retry, resolution or manual-review write changes the row exactly
    when it arrives and nothing has written the outcome, the status or the attempt
    count since that reconciler's own claim, which then is the latest.
  */
  lemma FencedWrites(cfg: Config, s: State, events: seq<Event>, id: nat, c: Choice)
    requires Init(s) && id < |Run(cfg, s, events).actors|
    requires var a := Run(cfg, s, events).actors[id]; a.Retry? || a.ResolveAs? || a.ReviewBy?
    ensures var t := Run(cfg, s, events);
            var a := t.actors[id];
            Exec(cfg, t, Step(id, c)).shared.row != t.shared.row <==> c.ack != NoEffect && t.shared.stamp == a.stamp
    ensures var t := Run(cfg, s, events);
            t.shared.stamp == t.actors[id].stamp ==>
              t.shared.row.attempts == t.actors[id].snapshot.attempts + 1
              && t.shared.reconClaims != [] && t.shared.reconClaims[|t.shared.reconClaims| - 1] == id
  {
    hide Run, StepActor, StillClaimed, OutcomesInv, LocalInv;
    StrictAlways(cfg, s, events);
    var t := Run(cfg, s, events);
    var a := t.actors[id];
    assert Ready(cfg, id, a, t.shared);
    FencedRow(cfg, id, a, t.shared, c);
    FenceIsStamp(cfg, id, a, t.shared);
  }

  // ----- budget -----

  lemma {:induction false} PowerGrows(n: nat)
    ensures Power(n) >= 1 && (n >= 1 ==> Power(n) >= 2) && (n >= 4 ==> Power(n) >= 16)
  {
    if n > 0 { PowerGrows(n - 1); }
  }

  /** Every retry waits between two and fifteen minutes: two, four, eight, and then fifteen. */
  lemma RetryDelayBounds(attempt: nat)
    requires attempt >= 1
    ensures 120_000 <= RetryDelay(attempt) <= 900_000
    ensures attempt < 4 ==> RetryDelay(attempt) == 60_000 * Power(attempt)
    ensures attempt >= 4 ==> RetryDelay(attempt) == 900_000
  {
    PowerGrows(attempt);
    assert Power(1) == 2 && Power(2) == 4 && Power(3) == 8;
  }

  /** The attempt count never exceeds the clamped budget, and a retry is only promised within it. */
  lemma BudgetKept(cfg: Config, s: State, events: seq<Event>)
    requires Init(s)
    ensures var r := Run(cfg, s, events).shared.row;
            r.attempts <= MaxAttempts(cfg) <= 10 && (r.status == FailedRetryable ==> r.attempts < MaxAttempts(cfg))
  {
    InvAlways(cfg, s, events);
  }
}
