/**
  The protocol with the worker's and the reconciler's real checks plugged in, and what
  then holds of every request and every confirmation.
*/
module Installation {
  import opened Wrappers
  import opened JsonText
  import opened Json
  import opened PlanRow
  import opened Protocol
  import opened ProtocolCore
  import PT = ProtocolTheorems
  import PP = ProtocolPayload
  import PF = Preflight
  import AP = ApprovalPayload
  import SS = SafetyState
  import GT = GovernedTagging

  /** The bound-approval check before claiming; the operation gate is checked after it. */
  predicate Verified(h: AP.Hash, plan: PF.Plan, now: int) {
    PF.VerifyBoundApproval(h, plan, now).None?
  }

  /** `validateReconciliationTarget`: the approved resource and tags, when everything still matches. */
  function ApprovedTarget(plan: PF.Plan): Option<Target> {
    var payload := plan.input.normalizedPayload;
    if plan.input.allowlistedOperation != Some(AP.TAGGING_OPERATION) then None
    else if plan.resourceOrganizationId != Some(plan.input.organizationId) then None
    else if plan.accountOrganizationId != Some(plan.input.organizationId) then None
    else if GT.ApprovedTags(payload).None? then None
    else if Get(payload.fields, Lit("resourceId")) != Str(plan.resourceId)
         || Get(payload.fields, Lit("region")) != Str(plan.resourceRegion) then None
    else if plan.approvedByRequestId.None? || plan.approvedByRequestId.value == [] || plan.approval.None? then None
    else
      var a := plan.approval.value;
      if a.id != plan.approvedByRequestId.value || a.remediationPlanId != plan.input.remediationPlanId
         || a.organizationId != plan.input.organizationId || !a.approved then None
      else Some(Target(plan.resourceId, GT.ApprovedTags(payload).value))
  }

  /**
    The reconciler looks for a target exactly when the plan is a tagging plan whose
    resource and account are of its organization, its approval was granted to it, and its
    payload names the plan's own instance and region and a strict list of tags.
  */
  lemma TargetIff(plan: PF.Plan, target: Target)
    ensures ApprovedTarget(plan) == Some(target) <==>
              && plan.input.allowlistedOperation == Some(AP.TAGGING_OPERATION)
              && plan.resourceOrganizationId == plan.accountOrganizationId == Some(plan.input.organizationId)
              && PF.Granted(plan)
              && GT.ApprovedTags(plan.input.normalizedPayload) == Some(target.tags)
              && target.resourceId == plan.resourceId
              && Get(plan.input.normalizedPayload.fields, Lit("resourceId")) == Str(plan.resourceId)
              && Get(plan.input.normalizedPayload.fields, Lit("region")) == Str(plan.resourceRegion)
  {
    hide GT.RequestedTags, GT.StrictEntries, Get;
  }

  function Configured(h: AP.Hash, settings: PF.Settings, maxAttempts: int, staleMs: int): Config {
    Config(maxAttempts, staleMs,
           (plan, now) => Verified(h, plan, now),
           plan => PF.OperationGate(plan),
           (plan, seen) => PF.Decide(h, plan, settings, seen),
           ApprovedTarget)
  }

  /**
    `approved` is what was approved when the request's approval was recorded, and the
    hash collides neither on the payload nor on the safety state.
  */
  ghost predicate ApprovedAs(h: AP.Hash, settings: PF.Settings, q: Request, approved: AP.Input) {
    && AP.JsonInput(q.plan.input) && AP.JsonInput(approved)
    && !AP.Collision(h, CanonicalText(AP.Build(approved)), CanonicalText(AP.Build(q.plan.input)))
    && (q.plan.approval.Some? ==>
          && WellFormed(q.plan.approval.value.evidence)
          && AP.HashesEqual(q.plan.approval.value.payloadHash, Some(h(CanonicalText(AP.Build(approved)))))
          && (PF.Decide(h, q.plan, settings, q.before).Proceed? ==>
                PF.FingerprintsApart(h, PF.StoredState(q.plan),
                  PF.LiveState(q.plan, q.before, PF.Decide(h, q.plan, settings, q.before).region, q.before.tags))))
  }

  /**
    The approval was granted to this plan and organization, by somebody other than the
    requester; its key and expiry are those of the job and the plan, and neither expiry
    had passed.
  */
  ghost predicate IsGranted(q: Request, approved: AP.Input) {
    && PF.Granted(q.plan) && PF.ByAnother(q.plan.approval.value)
    && approved.remediationPlanId == q.plan.approval.value.remediationPlanId
    && approved.organizationId == q.plan.approval.value.organizationId
    && approved.idempotencyKey == Some(q.key)
    && approved.approvalExpiresAt == q.plan.input.approvalExpiresAt
    && (approved.approvalExpiresAt.Some? ==> q.checkedAt <= approved.approvalExpiresAt.value)
    && PF.Unexpired(q.plan.approval.value, q.checkedAt)
  }

  /**
    A request that carries the approved tags, up to order, to the instance the approval
    names, under a granted approval in time, from the executor's session in the plan's
    account, with account, region and tag keys on the configured lists, decided on an
    instance in the approved safety state that passes the gates and is left in that state.
    If the provider answered about the instance asked for, they are one instance.
  */
  ghost predicate CarriesApproval(settings: PF.Settings, q: Request, approved: AP.Input) {
    && GT.RequestedTags(approved.normalizedPayload).Some?
    && multiset(q.tags) == multiset(GT.RequestedTags(approved.normalizedPayload).value)
    && q.target == PF.Instance(approved.normalizedPayload, q.plan.resourceId)
    && PF.GatesPassed(q.plan, q.before.tags)
    && IsGranted(q, approved) && PF.RightSession(q.plan, q.before)
    && GT.Accepted(q.tags, settings.allowedTagKeys) && PF.StoredState(q.plan).Ok?
    && var stored := PF.StoredState(q.plan);
       && PF.OnLists(q.plan, settings, stored.value.region)
       && stored.value.resourceId == q.before.instanceId
       && (PF.Answers(q.before, q.target) ==> stored.value.resourceId == q.target)
       && PF.LiveState(q.plan, q.before, stored.value.region, q.before.tags) == stored
       && PF.LiveState(q.plan, q.before, stored.value.region, GT.Apply(q.before.tags, q.tags)) == stored
  }

  /** A cleared request carries what was approved. */
  lemma ClearedIsApproved(
      h: AP.Hash, settings: PF.Settings, maxAttempts: int, staleMs: int, q: Request, approved: AP.Input)
    requires Cleared(Configured(h, settings, maxAttempts, staleMs), q) && ApprovedAs(h, settings, q, approved)
    ensures CarriesApproval(settings, q, approved)
  {
    hide PF.Decide, PF.VerifyBoundApproval, AP.JsonInput, PF.GatesPassed, AP.Build, CanonicalText, GT.RequestedTags,
         PF.StoredState, PF.FingerprintsApart, AP.HashesEqual, PF.OperationGate, GT.AllPresent, PF.Instance,
         PF.PinsState, PF.PayloadHashMatches, PF.Requests, PF.InPinnedState, PF.OnLists, PF.RightSession, PF.Granted,
         PF.ByAnother, GT.Accepted, PF.Unexpired;
    var cfg := Configured(h, settings, maxAttempts, staleMs);
    var now := q.checkedAt;
    assert Verified(h, q.plan, now);
    PF.VerifiedIff(h, q.plan, now);
    var sent := PF.Decide(h, q.plan, settings, q.before);
    PF.ProceedsIff(h, q.plan, settings, q.before, sent.tags, sent.region, sent.target);
    OfThisPlan(q.plan);
    PF.SentRequestIsAuthorised(h, q.plan, now, settings, q.before, approved);
    PF.SentTagsAreApproved(h, q.plan, now, settings, q.before, approved);
    SS.BuildRecords(q.before.instanceId, q.plan.accountId, PF.Decide(h, q.plan, settings, q.before).region,
                    q.before.tags, SS.SCHEMA_VERSION, SS.POLICY_VERSION);
  }

  lemma OfThisPlan(plan: PF.Plan)
    requires PF.Granted(plan)
    ensures plan.approval.value.remediationPlanId == plan.input.remediationPlanId
    ensures plan.approval.value.organizationId == plan.input.organizationId
  {}

  /** In every run, every request sent carries what was approved. */
  lemma EverySendIsApproved(
      h: AP.Hash, settings: PF.Settings, maxAttempts: int, staleMs: int,
      s: State, events: seq<Event>, q: Request, approved: AP.Input)
    requires Init(s) && q in Run(Configured(h, settings, maxAttempts, staleMs), s, events).shared.sends
    requires ApprovedAs(h, settings, q, approved)
    ensures CarriesApproval(settings, q, approved)
  {
    hide Run, CarriesApproval, ApprovedAs, Cleared;
    PT.EverySendCleared(Configured(h, settings, maxAttempts, staleMs), s, events, q);
    ClearedIsApproved(h, settings, maxAttempts, staleMs, q, approved);
  }

  // ----- confirmations -----

  /** A target the reconciler accepts is the instance and the tags of its payload. */
  lemma TargetIsOfPayload(plan: PF.Plan)
    requires ApprovedTarget(plan).Some?
    ensures var payload, target := plan.input.normalizedPayload, ApprovedTarget(plan).value;
            && GT.RequestedTags(payload) == Some(target.tags)
            && forall own :: PF.Instance(payload, own) == target.resourceId
  {
    hide GT.StrictEntries, GT.RequestedTags;
  }

  /** What a worker sends is the instance and the tags of its payload. */
  lemma RequestIsOfPayload(h: AP.Hash, settings: PF.Settings, maxAttempts: int, staleMs: int, q: Request)
    requires Cleared(Configured(h, settings, maxAttempts, staleMs), q)
    ensures GT.RequestedTags(q.plan.input.normalizedPayload) == Some(q.tags)
    ensures q.target == PF.Instance(q.plan.input.normalizedPayload, q.plan.resourceId)
  {
    hide PF.Decide, PF.LocalChecks, PF.VerifyBoundApproval, PF.OperationGate, GT.RequestedTags, GT.AllPresent,
         PF.TagFailure, GT.Accepted;
    PF.SentTagsAreRequested(h, q.plan, settings, q.before);
    PF.DecidedLocally(h, q.plan, settings, q.before);
    PF.LocallyChecked(q.plan, settings);
  }

  /**
    In every run in which nothing but simulating rewrites the payload of a bound plan, a
    confirmed plan was observed: some provider reading showed every tag of the one
    request let past the barrier, which carries what was approved, and a reconciler's
    reading was of that request's instance.
  */
  lemma EveryConfirmationIsApproved(
      h: AP.Hash, settings: PF.Settings, maxAttempts: int, staleMs: int, s: State, events: seq<Event>,
          approved: AP.Input)
    requires var cfg := Configured(h, settings, maxAttempts, staleMs);
             && Init(s) && PP.KeepsPayload(cfg, s, events)
             && Run(cfg, s, events).shared.row.outcome == ConfirmedSucceeded
             && (Run(cfg, s, events).shared.attempt.Some? ==>
                   ApprovedAs(h, settings, Run(cfg, s, events).shared.attempt.value, approved))
    ensures var sh := Run(Configured(h, settings, maxAttempts, staleMs), s, events).shared;
            && sh.attempt.Some? && sh.confirmation.Some?
            && var q, e := sh.attempt.value, sh.confirmation.value;
               && CarriesApproval(settings, q, approved)
               && TagsOf(e) == q.tags && e.reading in sh.readings && GT.AllPresent(q.tags, e.reading.tags)
               && (if e.BySender? then e.request == q && q in sh.sends
                   else e.reading.instanceId == q.target && PF.Granted(e.plan))
  {
    hide Run, CarriesApproval, ApprovedAs, Cleared, ApprovedTarget, GT.RequestedTags, GT.AllPresent, PF.Instance,
        PP.KeepsPayload, PF.Granted, GT.ApprovedTags;
    var cfg := Configured(h, settings, maxAttempts, staleMs);
    var sh := Run(cfg, s, events).shared;
    PP.ConfirmationIsAboutAttempt(cfg, s, events);
    PT.SuccessWasObserved(cfg, s, events);
    var q := sh.attempt.value;
    ClearedIsApproved(h, settings, maxAttempts, staleMs, q, approved);
    RequestIsOfPayload(h, settings, maxAttempts, staleMs, q);
    if sh.confirmation.value.ByReconciler? {
      assert ApprovedTarget(sh.confirmation.value.plan) == Some(sh.confirmation.value.target);
      TargetIsOfPayload(sh.confirmation.value.plan);
      TargetIff(sh.confirmation.value.plan, sh.confirmation.value.target);
    }
  }

  /** What the reconciler compares a reading with is what a worker would have sent. */
  lemma ReconcilerComparesSentTags(h: AP.Hash, plan: PF.Plan, settings: PF.Settings, seen: PF.Observation)
    requires ApprovedTarget(plan).Some? && PF.OperationGate(plan) && PF.Decide(h, plan, settings, seen).Proceed?
    ensures ApprovedTarget(plan).value.tags == PF.Decide(h, plan, settings, seen).tags
    ensures ApprovedTarget(plan).value.resourceId == PF.Decide(h, plan, settings, seen).target
  {
    hide PF.LiveChecks, GT.Accepted, GT.StrictEntries, GT.RequestedTags;
    PF.SentTagsAreRequested(h, plan, settings, seen);
  }
}
