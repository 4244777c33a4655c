/**
  What the provider answered decides what the row says: a failure is confirmed only by a
  rejection, an outcome is unknown only without one, and the request ids on record are
  those of the answer.
*/
module ProtocolResponses {
  import opened Wrappers
  import opened JsonText
  import opened PlanRow
  import opened Protocol
  import opened ProtocolCore
  import opened PlanStore
  import D = Delivery
  import GT = GovernedTagging

  /** An id on record is the one the provider answered with. */
  predicate FromAnswer(id: Option<Text>, responses: seq<Response>) {
    id.Some? ==> responses != [] && responses[0].id == id
  }

  ghost predicate AnswerInv(sh: Shared) {
    && |sh.responses| == |sh.sends|
    && (sh.row.outcome == ConfirmedFailed ==> sh.responses != [] && sh.responses[0].Rejected?)
    && (sh.row.outcome == OutcomeUnknown ==> sh.responses != [] && !sh.responses[0].Rejected?)
    && FromAnswer(sh.row.providerId, sh.responses) && FromAnswer(sh.row.awsId, sh.responses)
  }

  /** What a sender knows of the answer to its request. */
  ghost predicate ActorAnswer(a: Actor, responses: seq<Response>) {
    match a
    case RecordId(_, id) => responses != [] && responses[0] == Accepted(Some(id))
    case Recheck(_, id) => responses != [] && responses[0] == Accepted(Some(id))
    case ReadAfter(_, sent, id) => sent ==> responses != [] && responses[0] == Accepted(id)
    case ConfirmWrite(_, sent, id, _) => sent ==> responses != [] && responses[0] == Accepted(id)
    case Persist(target, id) =>
      && responses != [] && FromAnswer(id, responses)
      && (target == ConfirmedFailed || target == OutcomeUnknown)
      && (target == ConfirmedFailed <==> responses[0].Rejected?)
    case _ => true
  }

  ghost predicate AnswersInv(s: State) {
    AnswerInv(s.shared) && forall id | 0 <= id < |s.actors| :: ActorAnswer(s.actors[id], s.shared.responses)
  }

  /** A step keeps it, and what was answered stays answered. */
  ghost predicate KeptAnswer(sh: Shared, next: (Actor, Shared)) {
    && AnswerInv(next.1) && ActorAnswer(next.0, next.1.responses)
    && (sh.responses == [] || next.1.responses == sh.responses)
  }

  predicate IsSender(a: Actor) {
    a.Send? || a.RecordId? || a.Recheck? || a.ReadAfter?
  }

  lemma SenderKeepsAnswer(cfg: Config, id: nat, a: Actor, sh: Shared, c: Choice)
    requires SharedInv(cfg, sh) && ActorInv(cfg, id, a, sh) && AnswerInv(sh) && ActorAnswer(a, sh.responses)
    requires IsSender(a)
    ensures KeptAnswer(sh, StepActor(cfg, id, a, sh, c))
  {
    hide Recorded, Marked, LocalInv, Permits, GT.AllPresent;
  }

  lemma WriterKeepsAnswer(cfg: Config, id: nat, a: Actor, sh: Shared, c: Choice)
    requires AnswerInv(sh) && ActorAnswer(a, sh.responses) && (a.ConfirmWrite? || a.Persist?)
    ensures KeptAnswer(sh, StepActor(cfg, id, a, sh, c))
  {}

  lemma WorkerKeepsAnswer(cfg: Config, id: nat, a: Actor, sh: Shared, c: Choice)
    requires SharedInv(cfg, sh) && ActorInv(cfg, id, a, sh) && AnswerInv(sh)
    requires a.Lookup? || a.Load? || a.Claim? || a.Simulate? || a.Inspect? || a.Barrier? || a.Fail? || a.Block?
        || a.Schedule? || a.Done?
    ensures KeptAnswer(sh, StepActor(cfg, id, a, sh, c))
  {
    hide Recorded, Marked, LocalInv, Permits, GT.AllPresent, FromAnswer;
  }

  lemma ReconcilerKeepsAnswer(cfg: Config, id: nat, a: Actor, sh: Shared, c: Choice)
    requires ActorInv(cfg, id, a, sh) && AnswerInv(sh)
    requires a.Retry? || a.ResolveAs? || a.ReviewBy?
    ensures KeptAnswer(sh, StepActor(cfg, id, a, sh, c))
  {
    hide Marked, RetryDelay, FromAnswer, Observed;
  }

  lemma LookingKeepsAnswer(cfg: Config, id: nat, a: Actor, sh: Shared, c: Choice)
    requires AnswerInv(sh) && (a.Query? || a.ClaimAttempt? || a.Observe?)
    ensures KeptAnswer(sh, StepActor(cfg, id, a, sh, c))
  {
    hide GT.AllPresent, FromAnswer, Candidate;
  }

  lemma StepKeepsAnswer(cfg: Config, id: nat, a: Actor, sh: Shared, c: Choice)
    requires SharedInv(cfg, sh) && ActorInv(cfg, id, a, sh) && AnswerInv(sh) && ActorAnswer(a, sh.responses)
    ensures KeptAnswer(sh, StepActor(cfg, id, a, sh, c))
  {
    hide SharedInv, ActorInv, AnswerInv, ActorAnswer, KeptAnswer, StepActor;
    if IsSender(a) {
      SenderKeepsAnswer(cfg, id, a, sh, c);
    } else if a.ConfirmWrite? || a.Persist? {
      WriterKeepsAnswer(cfg, id, a, sh, c);
    } else if a.Query? || a.ClaimAttempt? || a.Observe? {
      LookingKeepsAnswer(cfg, id, a, sh, c);
    } else if a.Retry? || a.ResolveAs? || a.ReviewBy? {
      ReconcilerKeepsAnswer(cfg, id, a, sh, c);
    } else {
      WorkerKeepsAnswer(cfg, id, a, sh, c);
    }
  }

  lemma OthersKeepAnswer(b: Actor, before: seq<Response>, after: seq<Response>)
    requires ActorAnswer(b, before) && (before == [] || after == before)
    ensures ActorAnswer(b, after)
  {}

  lemma RouteKeepsAnswer(sh: Shared, w: OutsideWrite)
    requires AnswerInv(sh)
    ensures AnswerInv(ExecRoute(sh, w)) && ExecRoute(sh, w).responses == sh.responses
  {}

  lemma EventKeepsAnswer(cfg: Config, s: State, e: Event)
    requires Inv(cfg, s) && AnswersInv(s)
    ensures AnswersInv(Exec(cfg, s, e))
  {
    hide SharedInv, ActorInv, AnswerInv, ActorAnswer, StepActor, ExecRoute;
    var t := Exec(cfg, s, e);
    match e {
      case Step(id, c) =>
        if id < |s.actors| {
          StepKeepsAnswer(cfg, id, s.actors[id], s.shared, c);
          forall other | 0 <= other < |t.actors| ensures ActorAnswer(t.actors[other], t.shared.responses) {
            if other != id { OthersKeepAnswer(s.actors[other], s.shared.responses, t.shared.responses); }
          }
        }
      case Route(w) => RouteKeepsAnswer(s.shared, w);
      case Crash(id) => FreshAnswer(Done, s.shared.responses);
      case Deliver(key) => FreshAnswer(Lookup(key), s.shared.responses);
      case StartReconciler => FreshAnswer(Query, s.shared.responses);
    }
  }

  lemma FreshAnswer(a: Actor, responses: seq<Response>)
    requires a.Lookup? || a.Query? || a.Done?
    ensures ActorAnswer(a, responses)
  {}

  lemma {:induction false} AnswersAlways(cfg: Config, s: State, events: seq<Event>)
    requires Init(s)
    ensures Inv(cfg, Run(cfg, s, events)) && AnswersInv(Run(cfg, s, events))
    decreases |events|
  {
    hide Inv, Exec;
    InvAlways(cfg, s, events);
    if events != [] {
      var front := events[..|events| - 1];
      AnswersAlways(cfg, s, front);
      EventKeepsAnswer(cfg, Run(cfg, s, front), events[|events| - 1]);
    }
  }

  /**
    In every run, CONFIRMED_FAILED means that the one request sent was rejected, and
    OUTCOME_UNKNOWN that it was sent and not rejected; whatever request id is on record
    is the one the provider answered with.
  */
  lemma OutcomeIsTheAnswers(cfg: Config, s: State, events: seq<Event>)
    requires Init(s)
    ensures var sh := Run(cfg, s, events).shared;
            && |sh.responses| == |sh.sends| <= 1
            && (sh.row.outcome == ConfirmedFailed ==> |sh.sends| == 1 && sh.responses[0].Rejected?)
            && (sh.row.outcome == OutcomeUnknown ==> |sh.sends| == 1 && !sh.responses[0].Rejected?)
            && (forall id | id == sh.row.providerId || id == sh.row.awsId ::
                  id.None? || (|sh.sends| == 1 && sh.responses[0].id == id))
  {
    hide Run;
    AnswersAlways(cfg, s, events);
  }

  /**
    In every state of every run, a delivery that is about to send and is left alone settles
    its request by the answer: as a failure exactly when it is rejected, as a success
    exactly when it is accepted and every requested tag is read back, and otherwise as
    unknown and waiting for reconciliation.
  */
  lemma LeftAloneItSettles(cfg: Config, s: State, events: seq<Event>, id: nat, env: seq<Choice>)
    requires Init(s) && id < |Run(cfg, s, events).actors| && Run(cfg, s, events).actors[id].Send?
    requires Run(cfg, s, events).shared.row.outcome == Attempted
    requires |env| == 5 && forall c | c in env :: c.ack.Acked?
    ensures var t := Run(cfg, s, events);
            var after := Run(cfg, t, Steps(id, env)).shared;
            var q, response := t.actors[id].request, env[0].response;
            var at := D.WrittenAfter(response);
            && after.sends == [q] && after.responses == [response]
            && after.row == D.SettledRow(
                t.shared.row, response, D.SettledOutcome(q, response, env[at - 1].reading), env[at].now)
  {
    hide Run, Solo, D.SettledRow, D.SettledOutcome, Marked, Recorded;
    var t := Run(cfg, s, events);
    AnswersAlways(cfg, s, events);
    assert ActorInv(cfg, id, t.actors[id], t.shared);
    D.SendSettles(cfg, id, t.actors[id].request, t.shared, env, 0);
    SoloIsARun(cfg, t, id, env, 0);
    assert env[0..] == env && [] + [t.actors[id].request] == [t.actors[id].request];
  }
}
