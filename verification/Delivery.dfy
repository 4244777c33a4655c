/**
  What one delivery does when it is left alone: exactly when it sends a request, and what
  the row says afterwards, by what the provider answered and showed.
*/
module Delivery {
  import opened Wrappers
  import opened JsonText
  import opened PlanRow
  import opened Protocol
  import opened PlanStore
  import GT = GovernedTagging

  // ----- from the provider call on -----

  /** A rejection is a confirmed failure; only a reading with every requested tag is a success. */
  function SettledOutcome(q: Request, response: Response, reading: Option<Reading>): Outcome {
    if response.Rejected? then ConfirmedFailed
    else if response.Accepted? && reading.Some? && GT.AllPresent(q.tags, reading.value.tags) then ConfirmedSucceeded
    else OutcomeUnknown
  }

  /** The row once the request is settled. */
  function SettledRow(r: Row, response: Response, outcome: Outcome, now: int): Row {
    r.(outcome := outcome,
       lifecycle := if outcome == ConfirmedSucceeded then RollbackAvailable else Failed,
       status := if IsConfirmed(outcome) then Resolved else Pending,
       confirmedAt := if IsConfirmed(outcome) then Some(now) else None,
       nextAt := if IsConfirmed(outcome) then None else Some(now),
       providerId := response.id,
       awsId := response.id)
  }

  /** How many steps after the provider call the outcome is written. */
  function WrittenAfter(response: Response): nat {
    if !response.Accepted? then 1 else if response.id.None? then 2 else 3
  }

  /** Left alone, a delivery that sends settles its request by the provider's answer and one reading. */
  lemma SendSettles(cfg: Config, id: nat, q: Request, sh: Shared, env: seq<Choice>, k: nat)
    requires k + 5 <= |env| && forall c | c in env :: c.ack.Acked?
    requires sh.row.outcome == Attempted && sh.row.providerId.None? && sh.row.awsId.None?
    ensures var (a, after) := Solo(cfg, id, Send(q), sh, env, k);
            var response, at := env[k].response, k + WrittenAfter(env[k].response);
            && a.Done? && after.sends == sh.sends + [q] && after.responses == sh.responses + [response]
            && after.row == SettledRow(
                sh.row, response, SettledOutcome(q, response, env[at - 1].reading), env[at].now)
  {
    hide Solo, StepActor, GT.AllPresent;
    var response := env[k].response;
    var sent := sh.(sends := sh.sends + [q], responses := sh.responses + [response]);
    SoloStep(cfg, id, Send(q), sh, env, k);
    SendIsStep(cfg, id, q, sh, env[k]);
    match response {
      case Rejected(rid) => PersistSettles(cfg, id, ConfirmedFailed, rid, sent, env, k + 1);
      case Unclear(rid) => PersistSettles(cfg, id, OutcomeUnknown, rid, sent, env, k + 1);
      case Accepted(None) => ReadSettles(cfg, id, q, None, sent, env, k + 1);
      case Accepted(Some(rid)) =>
        var recorded := Put(sent, RecordRequestId(sent.row, rid).row);
        SoloStep(cfg, id, RecordId(q, rid), sent, env, k + 1);
        RecordIsStep(cfg, id, q, rid, sent, env[k + 1]);
        ReadSettles(cfg, id, q, Some(rid), recorded, env, k + 2);
    }
  }

  lemma SendIsStep(cfg: Config, id: nat, q: Request, sh: Shared, c: Choice)
    ensures StepActor(cfg, id, Send(q), sh, c) == StepSend(q, sh, c)
  {
    hide StepSend;
  }

  lemma RecordIsStep(cfg: Config, id: nat, q: Request, rid: Text, sh: Shared, c: Choice)
    requires c.ack.Acked? && sh.row.outcome == Attempted && sh.row.providerId.None? && sh.row.awsId.None?
    ensures StepActor(cfg, id, RecordId(q, rid), sh, c)
         == (ReadAfter(q, true, Some(rid)), Put(sh, RecordRequestId(sh.row, rid).row))
  {}

  /** The ids of a row whose request the provider answered with `rid`, before the outcome is known. */
  predicate HasIds(r: Row, rid: Option<Text>) {
    r.outcome == Attempted && r.providerId == r.awsId && (r.providerId.None? || r.providerId == rid)
  }

  lemma PersistSettles(cfg: Config, id: nat, target: Outcome, rid: Option<Text>, sh: Shared, env: seq<Choice>, k: nat)
    requires k + 1 < |env| && env[k].ack.Acked? && HasIds(sh.row, rid)
    requires target == OutcomeUnknown || target == ConfirmedFailed
    ensures var (a, after) := Solo(cfg, id, Persist(target, rid), sh, env, k);
            && a.Done? && after.sends == sh.sends && after.responses == sh.responses
            && after.row == SettledRow(sh.row, Unclear(rid), target, env[k].now)
  {
    hide Solo;
    SoloStep(cfg, id, Persist(target, rid), sh, env, k);
    SoloEnds(cfg, id, StepPersist(target, rid, sh, env[k]).1, env, k + 1);
  }

  lemma ReadSettles(cfg: Config, id: nat, q: Request, rid: Option<Text>, sh: Shared, env: seq<Choice>, k: nat)
    requires k + 2 < |env| && (forall c | c in env :: c.ack.Acked?) && HasIds(sh.row, rid) && sh.row.providerId == rid
    ensures var (a, after) := Solo(cfg, id, ReadAfter(q, true, rid), sh, env, k);
            && a.Done? && after.sends == sh.sends && after.responses == sh.responses
            && after.row == SettledRow(
                sh.row, Accepted(rid), SettledOutcome(q, Accepted(rid), env[k].reading), env[k + 1].now)
  {
    hide Solo, GT.AllPresent;
    SoloStep(cfg, id, ReadAfter(q, true, rid), sh, env, k);
    var (a, read) := StepActor(cfg, id, ReadAfter(q, true, rid), sh, env[k]);
    if a.Persist? {
      PersistSettles(cfg, id, OutcomeUnknown, rid, read, env, k + 1);
    } else {
      SoloStep(cfg, id, a, read, env, k + 1);
      SoloEnds(cfg, id, StepActor(cfg, id, a, read, env[k + 1]).1, env, k + 2);
    }
  }

  // ----- the whole delivery -----

  /** The request a delivery would send. */
  function RequestOf(cfg: Config, r: Row, key: Text, c: Choice): Request
    requires c.seen.Some? && cfg.decide(r.plan, c.seen.value).Proceed?
  {
    var verdict := cfg.decide(r.plan, c.seen.value);
    Request(r.plan, c.seen.value, verdict.tags, verdict.target, key, c.now)
  }

  /** What a request takes: the job's key, a permission to execute in time, and every check. */
  predicate Sends(cfg: Config, r: Row, key: Text, c: Choice) {
    && KeyOf(r) == Some(key) && Claimable(r.lifecycle) && r.outcome == NotAttempted && r.approvalGranted
    && (ExpiryOf(r).Some? ==> c.now < ExpiryOf(r).value)
    && !c.foreignKey && c.makerChecker && cfg.verified(r.plan, c.now) && c.gateOpen && cfg.gate(r.plan)
    && !c.simulation && c.seen.Some? && cfg.decide(r.plan, c.seen.value).Proceed?
    && !GT.AllPresent(RequestOf(cfg, r, key, c).tags, c.seen.value.tags)
  }

  lemma SendsRequest(cfg: Config, r: Row, key: Text, c: Choice)
    requires Sends(cfg, r, key, c)
    ensures c.seen.Some? && cfg.decide(r.plan, c.seen.value).Proceed?
  {}

  /** The job's key already has its answer. */
  predicate IsDuplicate(r: Row, key: Text) {
    KeyOf(r) == Some(key) && Settled(r.lifecycle)
  }

  /** The row after a delivery that sends nothing, from the row it claimed. */
  function InspectedRow(cfg: Config, claimed: Row, c: Choice): Row {
    if c.seen.None? then FailPlan(claimed)
    else
      match cfg.decide(claimed.plan, c.seen.value)
      case Refuse(_) => FailPlan(claimed)
      case Throw => if c.rethrow then claimed else FailPlan(claimed)
      case Proceed(tags, _, _) =>
        if c.reading.Some? && GT.AllPresent(tags, c.reading.value.tags) then
          claimed.(lifecycle := RollbackAvailable, confirmedAt := None, status := NotRequired, nextAt := None)
        else FailPlan(claimed)
  }

  /** The row after a delivery that sends nothing. */
  function UnsentRow(cfg: Config, r: Row, key: Text, c: Choice): Row {
    if IsDuplicate(r, key) || c.foreignKey then r
    else if !Claimable(r.lifecycle) then BlockPlan(r)
    else if r.outcome == Missing then FailPlan(r)
    else if r.outcome != NotAttempted then r
    else if !r.approvalGranted || (ExpiryOf(r).Some? && ExpiryOf(r).value < c.now) then FailPlan(r)
    else if KeyOf(r) != Some(key) then r
    else if !c.makerChecker || !cfg.verified(r.plan, c.now) then FailPlan(r)
    else if !c.gateOpen || !cfg.gate(r.plan) then BlockPlan(r)
    else if ExpiryOf(r) == Some(c.now) then r
    else
      var claimed := r.(lifecycle := Executing, leaseAt := Some(c.now));
      if c.simulation then CompleteSimulation(claimed) else InspectedRow(cfg, claimed, c)
  }

  /** An actor that is left with at most two steps, none of which touches the outcome of the plan. */
  predicate IsQuiet(a: Actor, r: Row) {
    || a.Done? || a.Fail? || a.Block? || a.Schedule? || (a.Simulate? && r.outcome == NotAttempted)
    || (a.ReadAfter? && !a.sent && r.outcome == NotAttempted)
    || (a.ConfirmWrite? && !a.sent && r.outcome == NotAttempted)
  }

  /** What such an actor leaves, when nobody has to be reminded to reconcile. */
  function QuietRow(a: Actor, r: Row, c: Choice): Row {
    match a
    case Fail => FailPlan(r)
    case Block => BlockPlan(r)
    case Simulate => CompleteSimulation(r)
    case ReadAfter(q, _, _) =>
      if c.reading.Some? && GT.AllPresent(q.tags, c.reading.value.tags) then Confirm(r, false, c.now).row
      else FailPlan(r)
    case ConfirmWrite(_, _, _, _) => Confirm(r, false, c.now).row
    case _ => r
  }

  lemma QuietStep(cfg: Config, id: nat, a: Actor, sh: Shared, c: Choice)
    requires IsQuiet(a, sh.row) && c.ack.Acked? && (a.Schedule? ==> a.snapshot == sh.row && HasMarker(sh.row))
    ensures var (b, after) := StepActor(cfg, id, a, sh, c);
            && IsQuiet(b, after.row) && after.sends == sh.sends && after.responses == sh.responses
            && after.row.outcome == sh.row.outcome && QuietRow(b, after.row, c) == QuietRow(a, sh.row, c)
            && (a.ReadAfter? ==> b.ConfirmWrite? || b.Fail?) && (!a.ReadAfter? ==> b.Done?)
  {
    hide GT.AllPresent;
  }

  /** An unresolved row is on its way to be reconciled, as in every reachable state. */
  predicate HasMarker(r: Row) {
    IsUnresolved(r.outcome) ==> r.status == Pending || r.status == InProgress || r.status == FailedRetryable
  }

  lemma EndsQuietly(cfg: Config, id: nat, a: Actor, sh: Shared, env: seq<Choice>, k: nat)
    requires IsQuiet(a, sh.row) && (a.Schedule? ==> a.snapshot == sh.row && HasMarker(sh.row))
    requires k + 2 <= |env| && env[k].ack.Acked? && env[k + 1] == env[k]
    ensures var (b, after) := Solo(cfg, id, a, sh, env, k);
            && b.Done? && after.sends == sh.sends && after.responses == sh.responses
            && after.row.outcome == sh.row.outcome && after.row == QuietRow(a, sh.row, env[k])
  {
    hide Solo, StepActor, IsQuiet, GT.AllPresent;
    if a.Done? {
      SoloEnds(cfg, id, sh, env, k);
    } else {
      SoloStep(cfg, id, a, sh, env, k);
      QuietStep(cfg, id, a, sh, env[k]);
      var (b, after) := StepActor(cfg, id, a, sh, env[k]);
      if b.Done? {
        SoloEnds(cfg, id, after, env, k + 1);
      } else {
        SoloStep(cfg, id, b, after, env, k + 1);
        QuietStep(cfg, id, b, after, env[k + 1]);
        SoloEnds(cfg, id, StepActor(cfg, id, b, after, env[k + 1]).1, env, k + 2);
      }
    }
  }

  /** A delivery that sends nothing and is about to leave what it should. */
  ghost predicate LeavesUnsent(cfg: Config, r: Row, key: Text, c: Choice, a: Actor, after: Row) {
    && !Sends(cfg, r, key, c)
    && IsQuiet(a, after) && (a.Schedule? ==> a.snapshot == after && HasMarker(after))
    && QuietRow(a, after, c) == UnsentRow(cfg, r, key, c)
  }

  /** How far a delivery gets before it claims. */
  lemma ReachesClaim(cfg: Config, id: nat, sh: Shared, key: Text, c: Choice)
    requires c.ack.Acked? && HasMarker(sh.row)
    ensures var (a, first) := StepActor(cfg, id, Lookup(key), sh, c);
            && first == sh
            && if a == Load(key) then
                 var (b, second) := StepActor(cfg, id, Load(key), sh, c);
                 second == sh
                 && (b == Claim(key, sh.row, c.now) || LeavesUnsent(cfg, sh.row, key, c, b, sh.row))
               else LeavesUnsent(cfg, sh.row, key, c, a, sh.row)
  {
    hide GT.AllPresent;
  }

  /** The plan once it is claimed. */
  function ClaimedBy(id: nat, sh: Shared, now: int): Shared {
    sh.(row := sh.row.(lifecycle := Executing, leaseAt := Some(now)), claimWins := sh.claimWins + [id])
  }

  lemma ReachesInspection(cfg: Config, id: nat, sh: Shared, key: Text, c: Choice)
    requires c.ack.Acked? && StepActor(cfg, id, Lookup(key), sh, c).0 == Load(key)
    requires StepActor(cfg, id, Load(key), sh, c).0 == Claim(key, sh.row, c.now)
    ensures var (a, after) := StepActor(cfg, id, Claim(key, sh.row, c.now), sh, c);
            if a == Inspect(key, sh.row, c.now) then after == ClaimedBy(id, sh, c.now)
            else LeavesUnsent(cfg, sh.row, key, c, a, after.row) && after.sends == sh.sends
  {
    hide GT.AllPresent;
  }

  /** The plan once the barrier is passed. */
  function Passed(id: nat, q: Request, sh: Shared, now: int): Shared {
    PutMarked(sh, sh.row.(outcome := Attempted, attemptedAt := Some(now), status := Pending)).(
      barriers := sh.barriers + [id], attempt := Some(q))
  }

  lemma ReachesProvider(cfg: Config, id: nat, sh: Shared, key: Text, c: Choice)
    requires c.ack.Acked? && StepActor(cfg, id, Lookup(key), sh, c).0 == Load(key)
    requires StepActor(cfg, id, Load(key), sh, c).0 == Claim(key, sh.row, c.now)
    requires StepActor(cfg, id, Claim(key, sh.row, c.now), sh, c).0 == Inspect(key, sh.row, c.now)
    ensures var claimed := ClaimedBy(id, sh, c.now);
            var (a, after) := StepActor(cfg, id, Inspect(key, sh.row, c.now), claimed, c);
            && after == claimed
            && if Sends(cfg, sh.row, key, c) then
                 var q := RequestOf(cfg, sh.row, key, c);
                 a == Barrier(q)
                 && StepActor(cfg, id, Barrier(q), claimed, c) == (Send(q), Passed(id, q, claimed, c.now))
               else LeavesUnsent(cfg, sh.row, key, c, a, claimed.row)
  {
    hide GT.AllPresent, StepSend, StepRecordId, StepRecheck, StepReadAfter, StepConfirm, StepPersist, StepSchedule,
         StepQuery, StepClaimAttempt, StepObserve, StepRetry, StepResolve, StepReview, StepSimulate;
  }

  /** The row after a delivery that sends. */
  function SentRow(r: Row, q: Request, c: Choice): Row {
    var attempted := r.(leaseAt := Some(c.now), attemptedAt := Some(c.now));
    SettledRow(attempted, c.response, SettledOutcome(q, c.response, c.reading), c.now)
  }

  /** What a delivery that is given the answers `c` ends with. */
  ghost predicate Ends(cfg: Config, sh: Shared, key: Text, c: Choice, end: (Actor, Shared)) {
    && end.0.Done?
    && if Sends(cfg, sh.row, key, c) then
         var q := RequestOf(cfg, sh.row, key, c);
         && end.1.sends == sh.sends + [q] && end.1.responses == sh.responses + [c.response]
         && end.1.row == SentRow(sh.row, q, c)
       else end.1.sends == sh.sends && end.1.row == UnsentRow(cfg, sh.row, key, c)
  }

  lemma QuietEnds(cfg: Config, id: nat, sh: Shared, key: Text, c: Choice, a: Actor, after: Shared, env: seq<Choice>,
    k: nat)
    requires LeavesUnsent(cfg, sh.row, key, c, a, after.row) && after.sends == sh.sends
    requires k + 2 <= |env| && env[k] == env[k + 1] == c && c.ack.Acked?
    ensures Ends(cfg, sh, key, c, Solo(cfg, id, a, after, env, k))
  {
    hide Solo, IsQuiet, Sends, UnsentRow, QuietRow, HasMarker;
    EndsQuietly(cfg, id, a, after, env, k);
  }

  lemma SentEnds(cfg: Config, id: nat, sh: Shared, key: Text, c: Choice, env: seq<Choice>)
    requires c.ack.Acked? && |env| == 11 && forall i | 0 <= i < |env| :: env[i] == c
    requires sh.row.providerId.None? && sh.row.awsId.None? && Sends(cfg, sh.row, key, c)
    ensures var q, claimed := RequestOf(cfg, sh.row, key, c), ClaimedBy(id, sh, c.now);
            Ends(cfg, sh, key, c, Solo(cfg, id, Send(q), Passed(id, q, claimed, c.now), env, 5))
  {
    hide Solo, SettledOutcome;
    var q, claimed := RequestOf(cfg, sh.row, key, c), ClaimedBy(id, sh, c.now);
    SendSettles(cfg, id, q, Passed(id, q, claimed, c.now), env, 5);
  }

  /** From the claim on. */
  lemma ClaimEnds(cfg: Config, id: nat, sh: Shared, key: Text, c: Choice, env: seq<Choice>)
    requires c.ack.Acked? && |env| == 11 && forall i | 0 <= i < |env| :: env[i] == c
    requires sh.row.providerId.None? && sh.row.awsId.None?
    requires StepActor(cfg, id, Lookup(key), sh, c).0 == Load(key)
    requires StepActor(cfg, id, Load(key), sh, c).0 == Claim(key, sh.row, c.now)
    ensures Ends(cfg, sh, key, c, Solo(cfg, id, Claim(key, sh.row, c.now), sh, env, 2))
  {
    hide Solo, StepActor, LeavesUnsent, Sends, Ends, Passed;
    SoloStep(cfg, id, Claim(key, sh.row, c.now), sh, env, 2);
    ReachesInspection(cfg, id, sh, key, c);
    var (a, claimed) := StepActor(cfg, id, Claim(key, sh.row, c.now), sh, c);
    if a != Inspect(key, sh.row, c.now) {
      QuietEnds(cfg, id, sh, key, c, a, claimed, env, 3);
    } else {
      SoloStep(cfg, id, a, claimed, env, 3);
      ReachesProvider(cfg, id, sh, key, c);
      if Sends(cfg, sh.row, key, c) {
        SendsRequest(cfg, sh.row, key, c);
        SoloStep(cfg, id, Barrier(RequestOf(cfg, sh.row, key, c)), claimed, env, 4);
        SentEnds(cfg, id, sh, key, c, env);
      } else {
        QuietEnds(cfg, id, sh, key, c, StepActor(cfg, id, a, claimed, c).0, claimed, env, 4);
      }
    }
  }

  /**
    Left alone and given the answers `c` throughout, a delivery sends exactly when all it
    takes is there; then the row says what the provider answered and showed, and
    otherwise how far the delivery got.
  */
  lemma DeliveryLeaves(cfg: Config, id: nat, sh: Shared, key: Text, c: Choice, env: seq<Choice>)
    requires c.ack.Acked? && |env| == 11 && forall i | 0 <= i < |env| :: env[i] == c
    requires sh.row.providerId.None? && sh.row.awsId.None? && HasMarker(sh.row)
    ensures Ends(cfg, sh, key, c, Solo(cfg, id, Lookup(key), sh, env, 0))
  {
    hide Solo, StepActor, LeavesUnsent, Sends, Ends;
    SoloStep(cfg, id, Lookup(key), sh, env, 0);
    ReachesClaim(cfg, id, sh, key, c);
    var a := StepActor(cfg, id, Lookup(key), sh, c).0;
    if a != Load(key) {
      QuietEnds(cfg, id, sh, key, c, a, sh, env, 1);
    } else {
      SoloStep(cfg, id, a, sh, env, 1);
      var b := StepActor(cfg, id, a, sh, c).0;
      if b != Claim(key, sh.row, c.now) {
        QuietEnds(cfg, id, sh, key, c, b, sh, env, 2);
      } else {
        ClaimEnds(cfg, id, sh, key, c, env);
      }
    }
  }

  /** So does a delivery that starts in any state of the system and is then left alone. */
  lemma DeliveryIsARun(cfg: Config, s: State, key: Text, c: Choice)
    requires c.ack.Acked? && HasMarker(s.shared.row)
    requires s.shared.row.providerId.None? && s.shared.row.awsId.None?
    ensures var t := Run(cfg, s, [Deliver(key)] + Steps(|s.actors|, seq(11, _ => c)));
            t.actors == s.actors + [Done] && Ends(cfg, s.shared, key, c, (Done, t.shared))
  {
    hide Solo, Run, Ends;
    var env := seq(11, _ => c);
    StartedAloneIsARun(cfg, s, Deliver(key), env);
    DeliveryLeaves(cfg, |s.actors|, s.shared, key, c, env);
    EndsDone(cfg, s.shared, key, c, Solo(cfg, |s.actors|, Lookup(key), s.shared, env, 0));
  }

  lemma EndsDone(cfg: Config, sh: Shared, key: Text, c: Choice, end: (Actor, Shared))
    requires Ends(cfg, sh, key, c, end)
    ensures end.0 == Done
  {}
}
