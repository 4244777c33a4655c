/**
  Everything the worker checks between loading a plan and sending `CreateTags`: the
  bound approval, the allow-lists, the executor's identity, the drift of the safety
  state and the gates on the live tags. The main result says what a request that
  passes all of it is known to be.
*/
module Preflight {
  import opened Wrappers
  import opened JsonText
  import opened Json
  import AP = ApprovalPayload
  import SS = SafetyState
  import GT = GovernedTagging

  datatype Approval = Approval(
    id: Text,
    remediationPlanId: Text,
    organizationId: Text,
    approved: bool,
    requestedById: Text,
    approvedById: Option<Text>,
    expiresAt: Option<int>,
    payloadHash: Option<Text>,
    fingerprint: Option<Text>,
    fingerprintSchemaVersion: Text,
    fingerprintPolicyVersion: Text,
    capturedAt: Option<int>,
    evidence: Value)

  /** The parts of a loaded plan that authorise a change; `input` holds its approval payload fields. */
  datatype Plan = Plan(
    input: AP.Input,
    approvedByRequestId: Option<Text>,
    approval: Option<Approval>,
    resourceOrganizationId: Option<Text>, // nothing when the resource row is gone
    resourceId: Text,
    resourceRegion: Text,
    accountOrganizationId: Option<Text>,
    accountId: Text,
    accountEnvironment: Text)

  // ----- the bound approval -----

  /** `verifyBoundApproval`: the failure to report, or nothing. Empty texts count as missing. */
  function VerifyBoundApproval(h: AP.Hash, plan: Plan, now: int): Option<string> {
    if plan.approvedByRequestId.None? || plan.approvedByRequestId.value == []
        then Some("APPROVAL_REQUEST_BINDING_MISSING")
    else if plan.approval.None? || plan.approval.value.id != plan.approvedByRequestId.value then
      Some("APPROVAL_REQUEST_BINDING_INVALID")
    else
      var a := plan.approval.value;
      if a.remediationPlanId != plan.input.remediationPlanId then Some("APPROVAL_REQUEST_PLAN_MISMATCH")
      else if a.organizationId != plan.input.organizationId then Some("APPROVAL_REQUEST_TENANT_MISMATCH")
      else if !a.approved then Some("APPROVAL_INVALID")
      else if a.approvedById.None? || a.approvedById.value == [] || a.approvedById.value == a.requestedById then
        Some("APPROVAL_INVALID")
      else if a.expiresAt.Some? && a.expiresAt.value < now then Some("APPROVAL_EXPIRED")
      else if a.payloadHash.None? || a.payloadHash.value == [] then Some("APPROVAL_PAYLOAD_MISMATCH")
      else if !PayloadHashMatches(h, plan, a) then Some("APPROVAL_PAYLOAD_MISMATCH")
      else FingerprintProblem(h, a)
  }

  /** A payload that cannot be hashed makes the check throw, which is not a match either. */
  predicate PayloadHashMatches(h: AP.Hash, plan: Plan, a: Approval) {
    var current := AP.ComputeHash(h, AP.Build(plan.input));
    current.Ok? && AP.HashesEqual(a.payloadHash, Some(current.value))
  }

  function FingerprintProblem(h: AP.Hash, a: Approval): Option<string> {
    if a.fingerprint.None? || a.fingerprint.value == [] then Some("RESOURCE_FINGERPRINT_MISSING")
    else if !AP.IsDigest(a.fingerprint.value) then Some("RESOURCE_FINGERPRINT_INVALID")
    else if a.fingerprintSchemaVersion != SS.SCHEMA_VERSION || a.fingerprintPolicyVersion != SS.POLICY_VERSION then
      Some("RESOURCE_FINGERPRINT_VERSION_UNSUPPORTED")
    else if a.capturedAt.None? then Some("RESOURCE_FINGERPRINT_INVALID")
    else
      var stored := SS.Parse(a.evidence, a.fingerprintSchemaVersion, a.fingerprintPolicyVersion);
      if stored.Err? then Some("RESOURCE_FINGERPRINT_INVALID")
      else if !AP.HashesEqual(a.fingerprint, Fingerprint(h, stored.value)) then Some("RESOURCE_FINGERPRINT_INVALID")
      else None
  }

  /** `computeEc2TagSafetyFingerprint` of a state's own identifiers and control tags. */
  function Fingerprint(h: AP.Hash, s: SS.State): Option<Text> {
    if |s.controlTags| != 3 then None
    else
      match SS.Build(s.resourceId, s.accountId, s.region, SS.ControlTagsToInput(s.controlTags), SS.SCHEMA_VERSION,
          SS.POLICY_VERSION)
      case Err(_) => None
      case Ok(rebuilt) => if |rebuilt.controlTags| == 3 then Some(h(SS.FingerprintText(rebuilt))) else None
  }

  /** The bound approval is one of this plan and organization, and it was granted. */
  predicate Granted(plan: Plan) {
    && plan.approval.Some?
    && var a := plan.approval.value;
       && plan.approvedByRequestId == Some(a.id) && a.id != []
       && a.remediationPlanId == plan.input.remediationPlanId && a.organizationId == plan.input.organizationId
       && a.approved
  }

  /** Somebody other than the requester granted it. */
  predicate ByAnother(a: Approval) {
    a.approvedById.Some? && a.approvedById.value != [] && a.approvedById.value != a.requestedById
  }

  predicate Unexpired(a: Approval, now: int) {
    a.expiresAt.Some? ==> now <= a.expiresAt.value
  }

  /** The approval pins down a safety state, captured and hashed under the versions in force. */
  predicate PinsState(h: AP.Hash, a: Approval) {
    && a.fingerprintSchemaVersion == SS.SCHEMA_VERSION && a.fingerprintPolicyVersion == SS.POLICY_VERSION
    && a.capturedAt.Some?
    && var stored := SS.Parse(a.evidence, SS.SCHEMA_VERSION, SS.POLICY_VERSION);
       stored.Ok? && AP.HashesEqual(a.fingerprint, Fingerprint(h, stored.value))
  }

  lemma FingerprintPassesIff(h: AP.Hash, a: Approval)
    ensures FingerprintProblem(h, a).None? <==> PinsState(h, a)
  {
    hide SS.Parse, Fingerprint;
  }

  /**
    A plan passes the bound-approval check exactly when its approval was granted to it, in
    its organization, by somebody other than the requester, has not expired, and matches
    its payload and a safety state.
  */
  lemma VerifiedIff(h: AP.Hash, plan: Plan, now: int)
    ensures VerifyBoundApproval(h, plan, now).None? <==>
              && Granted(plan) && ByAnother(plan.approval.value) && Unexpired(plan.approval.value, now)
              && PayloadHashMatches(h, plan, plan.approval.value) && PinsState(h, plan.approval.value)
  {
    hide FingerprintProblem, PinsState, AP.Build, AP.ComputeHash, AP.IsDigest;
    if plan.approval.Some? {
      FingerprintPassesIff(h, plan.approval.value);
      if PayloadHashMatches(h, plan, plan.approval.value) { MatchingIsNotEmpty(h, plan, plan.approval.value); }
    }
  }

  lemma MatchingIsNotEmpty(h: AP.Hash, plan: Plan, a: Approval)
    requires PayloadHashMatches(h, plan, a)
    ensures a.payloadHash.Some? && a.payloadHash.value != []
  {
    hide AP.Build, AP.ComputeHash;
  }

  // ----- the live checks -----

  datatype Settings = Settings(staging: bool, allowedAccounts: seq<Text>, allowedRegions: seq<Text>,
      allowedTagKeys: seq<Text>)

  /** What the executor session and `DescribeInstances` answered. */
  datatype Observation = Observation(account: Option<Text>, roleMatches: bool, instanceId: Text, tags: map<Text, Text>)

  datatype Verdict = Refuse(code: string) | Throw | Proceed(tags: seq<GT.Tag>, region: Text, target: Text)

  predicate Falsy(v: Value) {
    match v
    case Null => true
    case Unsupported => true
    case Bool(b) => !b
    case Num(lit) => lit == Lit("0")
    case Str(text) => text == []
    case _ => false
  }

  /** `payload[key] || fallback` */
  function OrElse(payload: Value, key: Text, fallback: Text): Value
    requires payload.Obj?
  {
    var v := Get(payload.fields, key);
    if Falsy(v) then Str(fallback) else v
  }

  /** The plan's own value stands in exactly for what is missing, null, false, zero or empty. */
  lemma FallsBackIff(payload: Value, key: Text, fallback: Text)
    requires payload.Obj?
    ensures var v := Get(payload.fields, key);
            var silent := v in {Null, Unsupported, Bool(false), Num(Lit("0")), Str([])};
            OrElse(payload, key, fallback) == if silent then Str(fallback) else v
  {
    hide Get;
  }

  const RESOURCE_KEY: Text := Lit("resourceId")

  predicate Listed(v: Value, texts: seq<Text>) {
    v.Str? && v.text in texts
  }

  /** The failure of the tag loop: that of the first offending tag. */
  function TagFailure(tags: seq<GT.Tag>, allowed: seq<Text>, n: nat): Option<string>
    requires n <= |tags|
    decreases |tags| - n
  {
    if n == |tags| then None
    else
      var p := GT.TagProblem(tags[n], GT.KeysOf(tags[..n]), allowed);
      if p.Some? then p else TagFailure(tags, allowed, n + 1)
  }

  /** The checks made before any provider call. */
  function LocalChecks(plan: Plan, cfg: Settings): Verdict {
    var payload := plan.input.normalizedPayload;
    if !payload.Obj? then Throw
    else
      var region := OrElse(payload, Lit("region"), plan.resourceRegion);
      var target := OrElse(payload, RESOURCE_KEY, plan.resourceId);
      var requested := GT.RequestedTags(payload);
      if requested.None? then Throw
      else if cfg.staging && (cfg.allowedAccounts == [] || cfg.allowedRegions == [])
          then Refuse("ALLOWLIST_NOT_CONFIGURED")
      else if cfg.allowedAccounts != [] && plan.accountId !in cfg.allowedAccounts then Refuse("ACCOUNT_NOT_ALLOWLISTED")
      else if cfg.allowedRegions != [] && !Listed(region, cfg.allowedRegions) then Refuse("REGION_NOT_ALLOWLISTED")
      else if cfg.staging && cfg.allowedTagKeys == [] then Refuse("TAG_ALLOWLIST_NOT_CONFIGURED")
      else if requested.value == [] then Refuse(GT.MALFORMED)
      else
        var failure := TagFailure(requested.value, cfg.allowedTagKeys, 0);
        if failure.Some? then Refuse(failure.value)
        else if !region.Str? || !target.Str? then Throw
        else Proceed(requested.value, region.text, target.text)
  }

  const ENVIRONMENT: Text := Lit("Environment")
  const PROTECTED: Text := Lit("CloudShieldProtected")
  const MANAGED: Text := Lit("CloudShieldManaged")

  predicate Has(tags: map<Text, Text>, key: Text, value: Text) {
    key in tags && tags[key] == value
  }

  /** The checks on the session and on the live instance. */
  function LiveChecks(h: AP.Hash, plan: Plan, cfg: Settings, seen: Observation, region: Text): Option<string>
    requires plan.approval.Some?
  {
    if cfg.allowedAccounts != [] && seen.account.Some? && seen.account.value != []
        && seen.account.value !in cfg.allowedAccounts then
      Some("ACCOUNT_NOT_ALLOWLISTED")
    else if seen.account != Some(plan.accountId) then Some("IDENTITY_MISMATCH")
    else if !seen.roleMatches then Some("ROLE_PRINCIPAL_MISMATCH")
    else
      var current := SS.Build(seen.instanceId, plan.accountId, region, seen.tags, SS.SCHEMA_VERSION, SS.POLICY_VERSION);
      if current.Err? then Some("RESOURCE_STATE_READ_FAILED")
      else if !AP.HashesEqual(plan.approval.value.fingerprint, Fingerprint(h, current.value))
          then Some("RESOURCE_STATE_DRIFTED")
      else if Has(seen.tags, ENVIRONMENT, Lit("prod")) then Some("PRODUCTION_TARGET")
      else if Has(seen.tags, PROTECTED, Lit("true")) then Some("PROTECTED_TARGET")
      else if !Has(seen.tags, MANAGED, Lit("true")) then Some("RESOURCE_NOT_MANAGED")
      else if !Has(seen.tags, ENVIRONMENT, Lit("sandbox"))
              && !(Has(seen.tags, ENVIRONMENT, Lit("staging")) && plan.accountEnvironment == Lit("staging")) then
        Some("ENVIRONMENT_MISMATCH")
      else None
  }

  /** The verdict on a claimed plan: refuse, throw, or go on with these tags. */
  function Decide(h: AP.Hash, plan: Plan, cfg: Settings, seen: Observation): Verdict {
    match LocalChecks(plan, cfg)
    case Proceed(tags, region, target) =>
      if plan.approval.None? then Throw
      else
        (match LiveChecks(h, plan, cfg, seen, region)
         case Some(code) => Refuse(code)
         case None => Proceed(tags, region, target))
    case other => other
  }

  // ----- what a passing request is -----

  lemma {:induction false} NoTagFailure(tags: seq<GT.Tag>, allowed: seq<Text>, n: nat)
    requires n <= |tags| && TagFailure(tags, allowed, n).None?
    ensures forall i | n <= i < |tags| :: GT.TagProblem(tags[i], GT.KeysOf(tags[..i]), allowed).None?
    decreases |tags| - n
  {
    if n < |tags| { NoTagFailure(tags, allowed, n + 1); }
  }

  lemma NoFailureAccepts(tags: seq<GT.Tag>, allowed: seq<Text>)
    requires tags != [] && TagFailure(tags, allowed, 0).None?
    ensures GT.Accepted(tags, allowed)
  {
    NoTagFailure(tags, allowed, 0);
    forall i, j | 0 <= i < j < |tags| ensures tags[i].key != tags[j].key {
      assert tags[..j][i] == tags[i];
      assert tags[i].key in GT.KeysOf(tags[..j]);
    }
    forall t | t in tags
      ensures !GT.IsBlank(t.key) && |t.key| <= 128 && |t.value| <= 256
      ensures !GT.IsReserved(t.key) && t.key !in SS.CONTROL_KEYS && (allowed == [] || t.key in allowed)
    {
      var i :| 0 <= i < |tags| && tags[i] == t;
    }
  }

  lemma {:induction false} AcceptedHasNoFailure(tags: seq<GT.Tag>, allowed: seq<Text>, n: nat)
    requires GT.Accepted(tags, allowed) && n <= |tags|
    ensures TagFailure(tags, allowed, n).None?
    decreases |tags| - n
  {
    if n < |tags| {
      assert tags[n] in tags;
      assert tags[n].key !in GT.KeysOf(tags[..n]);
      AcceptedHasNoFailure(tags, allowed, n + 1);
    }
  }

  /** The state the approval pins down, as the worker parses it. */
  function StoredState(plan: Plan): Result<SS.State, string>
    requires plan.approval.Some?
  {
    SS.Parse(plan.approval.value.evidence, SS.SCHEMA_VERSION, SS.POLICY_VERSION)
  }

  /** The gate on the normalised payload: it is a tagging action. */
  predicate OperationGate(plan: Plan) {
    && plan.input.normalizedPayload.Obj?
    && Get(plan.input.normalizedPayload.fields, AP.OPERATION_KEY) == Str(AP.TAGGING_OPERATION)
  }

  /** What the checks before any provider call have let through. */
  lemma LocallyChecked(plan: Plan, cfg: Settings)
    requires LocalChecks(plan, cfg).Proceed?
    ensures var payload, tags := plan.input.normalizedPayload, LocalChecks(plan, cfg).tags;
            && payload.Obj? && GT.RequestedTags(payload) == Some(tags) && tags != []
            && TagFailure(tags, cfg.allowedTagKeys, 0).None?
            && OrElse(payload, RESOURCE_KEY, plan.resourceId) == Str(LocalChecks(plan, cfg).target)
  {
    hide GT.RequestedTags, TagFailure, OrElse, Listed;
  }

  lemma DecidedLocally(h: AP.Hash, plan: Plan, cfg: Settings, seen: Observation)
    requires Decide(h, plan, cfg, seen).Proceed?
    ensures LocalChecks(plan, cfg) == Decide(h, plan, cfg, seen)
    ensures plan.approval.Some? && LiveChecks(h, plan, cfg, seen, Decide(h, plan, cfg, seen).region).None?
  {
    hide LocalChecks, LiveChecks;
  }

  /** A payload that requests some tags has a list of them. */
  lemma RequestedIsTagging(payload: Value)
    requires payload.Obj? && Get(payload.fields, AP.OPERATION_KEY) == Str(AP.TAGGING_OPERATION)
    requires GT.RequestedTags(payload).Some? && GT.RequestedTags(payload).value != []
    ensures AP.IsTagging(payload)
  {
    hide GT.RequestedTag, Get;
  }

  /** What goes out is what the plan's own payload requests, and the tag loop let it through. */
  lemma SentTagsAreRequested(h: AP.Hash, plan: Plan, cfg: Settings, seen: Observation)
    requires OperationGate(plan) && Decide(h, plan, cfg, seen).Proceed?
    ensures AP.IsTagging(plan.input.normalizedPayload)
    ensures GT.RequestedTags(plan.input.normalizedPayload) == Some(Decide(h, plan, cfg, seen).tags)
    ensures GT.Accepted(Decide(h, plan, cfg, seen).tags, cfg.allowedTagKeys)
  {
    hide Decide, LocalChecks, GT.Accepted, GT.RequestedTags, TagFailure, AP.IsTagging;
    DecidedLocally(h, plan, cfg, seen);
    LocallyChecked(plan, cfg);
    RequestedIsTagging(plan.input.normalizedPayload);
    NoFailureAccepts(Decide(h, plan, cfg, seen).tags, cfg.allowedTagKeys);
  }

  /** A verified plan hashes to the recorded hash, hence to the approved text. */
  lemma VerifiedTextIsApproved(h: AP.Hash, plan: Plan, now: int, approved: AP.Input)
    requires VerifyBoundApproval(h, plan, now).None?
    requires AP.HashesEqual(plan.approval.value.payloadHash, Some(h(CanonicalText(AP.Build(approved)))))
    requires !AP.Collision(h, CanonicalText(AP.Build(approved)), CanonicalText(AP.Build(plan.input)))
    ensures CanonicalText(AP.Build(approved)) == CanonicalText(AP.Build(plan.input))
  {
    hide CanonicalText, AP.Build, FingerprintProblem, Supported;
    assert PayloadHashMatches(h, plan, plan.approval.value);
  }

  /** The tags a passing plan sends are those of the approved payload, up to order. */
  lemma SentTagsAreApproved(h: AP.Hash, plan: Plan, now: int, cfg: Settings, seen: Observation, approved: AP.Input)
    requires AP.JsonInput(plan.input) && AP.JsonInput(approved)
    requires VerifyBoundApproval(h, plan, now).None? && Decide(h, plan, cfg, seen).Proceed?
    requires OperationGate(plan)
    requires AP.HashesEqual(plan.approval.value.payloadHash, Some(h(CanonicalText(AP.Build(approved)))))
    requires !AP.Collision(h, CanonicalText(AP.Build(approved)), CanonicalText(AP.Build(plan.input)))
    ensures AP.SameApproval(approved, plan.input)
    ensures GT.RequestedTags(approved.normalizedPayload).Some?
    ensures multiset(Decide(h, plan, cfg, seen).tags) == multiset(GT.RequestedTags(approved.normalizedPayload).value)
    ensures GT.Accepted(Decide(h, plan, cfg, seen).tags, cfg.allowedTagKeys)
  {
    hide Decide, VerifyBoundApproval, GT.RequestedTags, AP.SamePayload, CanonicalText, AP.Build, GT.Accepted,
        OperationGate;
    hide AP.HashesEqual, AP.Collision, AP.IsTagging, AP.SameScalars, AP.SameJson, IsJson;
    VerifiedTextIsApproved(h, plan, now, approved);
    SentTagsAreRequested(h, plan, cfg, seen);
    AP.ApprovalTextIffSame(approved, plan.input);
    SamePayloadSymmetric(approved.normalizedPayload, plan.input.normalizedPayload);
    GT.SamePayloadRequestsSameTags(plan.input.normalizedPayload, approved.normalizedPayload);
  }

  /** The instance a payload names, or the plan's own when it names none. */
  function Instance(payload: Value, own: Text): Text {
    if !payload.Obj? then own
    else
      var v := Get(payload.fields, RESOURCE_KEY);
      if v.Str? && v.text != [] then v.text else own
  }

  /** Payloads that an approval does not tell apart name the same instance. */
  lemma SamePayloadSameInstance(v: Value, w: Value, own: Text)
    requires IsJson(v) && IsJson(w) && AP.SamePayload(v, w)
    ensures Instance(v, own) == Instance(w, own)
  {
    LitDiffers("resourceId", "tags");
    hide IsJson, WellFormed, AP.IsTagging, AP.TagsOf, AP.Meanings;
    if v.Obj? {
      SameMember(v, w, RESOURCE_KEY);
      var x, y := Get(v.fields, RESOURCE_KEY), Get(w.fields, RESOURCE_KEY);
      AP.KindFromMeaning(x, if y.Str? then y.text else []);
      AP.KindFromMeaning(y, if x.Str? then x.text else []);
    }
  }

  /** Outside the tags they agree on every member. */
  lemma SameMember(v: Value, w: Value, key: Text)
    requires IsJson(v) && IsJson(w) && AP.SamePayload(v, w) && v.Obj? && key != AP.TAGS_KEY
    ensures w.Obj? && MeaningOf(Get(v.fields, key)) == MeaningOf(Get(w.fields, key))
  {
    hide AP.TagsOf, AP.Meanings;
    var m, n := MeaningOf(v).members, MeaningOf(w).members;
    assert m.Keys == KeySet(v.fields) && n.Keys == KeySet(w.fields);
    assert key in m <==> key in m - {AP.TAGS_KEY};
    assert key in n <==> key in n - {AP.TAGS_KEY};
    if key in m {
      MemberMeaning(v.fields, key);
      MemberMeaning(w.fields, key);
    }
  }

  /** A request goes to the instance that the approved payload names, or else to the plan's own. */
  lemma SentTargetIsApproved(h: AP.Hash, plan: Plan, cfg: Settings, seen: Observation, approved: AP.Input)
    requires AP.JsonInput(plan.input) && AP.JsonInput(approved) && AP.SameApproval(approved, plan.input)
    requires Decide(h, plan, cfg, seen).Proceed?
    ensures Decide(h, plan, cfg, seen).target == Instance(approved.normalizedPayload, plan.resourceId)
  {
    hide Decide, LocalChecks, GT.RequestedTags, TagFailure, AP.SamePayload, IsJson, Get;
    SamePayloadSameInstance(approved.normalizedPayload, plan.input.normalizedPayload, plan.resourceId);
    DecidedLocally(h, plan, cfg, seen);
    LocallyChecked(plan, cfg);
  }

  lemma SamePayloadSymmetric(v: Value, w: Value)
    requires AP.SamePayload(v, w)
    ensures AP.SamePayload(w, v)
  {}

  function LiveState(plan: Plan, seen: Observation, region: Text, tags: map<Text, Text>): Result<SS.State, string> {
    SS.Build(seen.instanceId, plan.accountId, region, tags, SS.SCHEMA_VERSION, SS.POLICY_VERSION)
  }

  /** The fingerprints of the approved state and of the live state do not collide. */
  ghost predicate FingerprintsApart(h: AP.Hash, stored: Result<SS.State, string>, live: Result<SS.State, string>) {
    stored.Ok? && live.Ok? && SS.Valid(stored.value) && SS.Valid(live.value) ==>
      !AP.Collision(h, SS.FingerprintText(stored.value), SS.FingerprintText(live.value))
  }

  /** Equal fingerprints are equal states, short of a collision. */
  lemma FingerprintsAgree(h: AP.Hash, stored: SS.State, live: SS.State, recorded: Option<Text>)
    requires SS.Valid(stored) && SS.Valid(live) && FingerprintsApart(h, Ok(stored), Ok(live))
    requires AP.HashesEqual(recorded, Fingerprint(h, stored)) && AP.HashesEqual(recorded, Fingerprint(h, live))
    ensures stored == live
  {
    hide SS.FingerprintText, SS.Valid, Fingerprint;
    FingerprintOfValid(h, stored);
    FingerprintOfValid(h, live);
    SS.NoDriftIffSameText(stored, live);
  }

  /** A verified plan's evidence parses, and hashes to the recorded fingerprint. */
  lemma VerifiedFingerprint(h: AP.Hash, plan: Plan, now: int)
    requires VerifyBoundApproval(h, plan, now).None?
    ensures plan.approval.Some? && StoredState(plan).Ok?
    ensures AP.HashesEqual(plan.approval.value.fingerprint, Fingerprint(h, StoredState(plan).value))
  {
    hide SS.Parse, Fingerprint, PayloadHashMatches, AP.HashesEqual, AP.IsDigest;
    assert FingerprintProblem(h, plan.approval.value).None?;
  }

  /** The live instance is in the approved safety state. */
  lemma LiveStateIsApproved(h: AP.Hash, plan: Plan, now: int, cfg: Settings, seen: Observation, region: Text)
    requires VerifyBoundApproval(h, plan, now).None? && LiveChecks(h, plan, cfg, seen, region).None?
    requires WellFormed(plan.approval.value.evidence)
    requires FingerprintsApart(h, StoredState(plan), LiveState(plan, seen, region, seen.tags))
    ensures StoredState(plan).Ok? && LiveState(plan, seen, region, seen.tags) == StoredState(plan)
    ensures StoredState(plan).value.resourceId == seen.instanceId
  {
    hide SS.Parse, SS.Build, Fingerprint, VerifyBoundApproval, SS.Valid, AP.HashesEqual, FingerprintsApart,
        WellFormed, Has;
    VerifiedFingerprint(h, plan, now);
    SS.BuildRecords(seen.instanceId, plan.accountId, region, seen.tags, SS.SCHEMA_VERSION, SS.POLICY_VERSION);
    SS.ParseIff(plan.approval.value.evidence, StoredState(plan).value);
    FingerprintsAgree(h, StoredState(plan).value, LiveState(plan, seen, region, seen.tags).value,
        plan.approval.value.fingerprint);
  }

  lemma FingerprintOfValid(h: AP.Hash, s: SS.State)
    requires SS.Valid(s)
    ensures Fingerprint(h, s) == Some(h(SS.FingerprintText(s)))
  {
    SS.RebuildIsIdentity(s);
  }

  /** The live tags pass every gate. */
  ghost predicate GatesPassed(plan: Plan, tags: map<Text, Text>) {
    && Has(tags, MANAGED, Lit("true")) && !Has(tags, PROTECTED, Lit("true"))
    && (Has(tags, ENVIRONMENT, Lit("sandbox"))
        || (Has(tags, ENVIRONMENT, Lit("staging")) && plan.accountEnvironment == Lit("staging")))
  }

  /** The provider answers about the instance it is asked about. */
  predicate Answers(seen: Observation, target: Text) {
    seen.instanceId == target
  }

  /**
    A request that goes out carries the approved tags to the instance the approval
    names. The instance observed is in the approved safety state, passes the gates, and
    is left in that state; if the provider answered about the instance asked for, that
    is the one the request goes to.
  */
  lemma SentRequestIsAuthorised(h: AP.Hash, plan: Plan, now: int, cfg: Settings, seen: Observation, approved: AP.Input)
    requires AP.JsonInput(plan.input) && AP.JsonInput(approved)
    requires VerifyBoundApproval(h, plan, now).None? && Decide(h, plan, cfg, seen).Proceed?
    requires OperationGate(plan) && WellFormed(plan.approval.value.evidence)
    requires AP.HashesEqual(plan.approval.value.payloadHash, Some(h(CanonicalText(AP.Build(approved)))))
    requires !AP.Collision(h, CanonicalText(AP.Build(approved)), CanonicalText(AP.Build(plan.input)))
    requires FingerprintsApart(h, StoredState(plan),
        LiveState(plan, seen, Decide(h, plan, cfg, seen).region, seen.tags))
    ensures var sent := Decide(h, plan, cfg, seen);
            && GT.RequestedTags(approved.normalizedPayload).Some?
            && multiset(sent.tags) == multiset(GT.RequestedTags(approved.normalizedPayload).value)
            && sent.target == Instance(approved.normalizedPayload, plan.resourceId)
            && GatesPassed(plan, seen.tags)
            && StoredState(plan).Ok?
            && StoredState(plan).value.resourceId == seen.instanceId
            && (Answers(seen, sent.target) ==> StoredState(plan).value.resourceId == sent.target)
            && LiveState(plan, seen, sent.region, seen.tags) == StoredState(plan)
            && LiveState(plan, seen, sent.region, GT.Apply(seen.tags, sent.tags)) == StoredState(plan)
  {
    hide Decide, VerifyBoundApproval, LiveChecks, GT.Accepted, AP.SameApproval, AP.JsonInput, Instance,
         GT.RequestedTags, AP.Build, CanonicalText, StoredState, LiveState, FingerprintsApart, WellFormed,
         OperationGate, GatesPassed;
    SentTagsAreApproved(h, plan, now, cfg, seen, approved);
    SentTargetIsApproved(h, plan, cfg, seen, approved);
    DecidedLocally(h, plan, cfg, seen);
    var sent := Decide(h, plan, cfg, seen);
    LiveStateIsApproved(h, plan, now, cfg, seen, sent.region);
    StateSurvives(plan, seen, sent.region, sent.tags, cfg.allowedTagKeys);
    GatesOfLiveChecks(h, plan, cfg, seen, sent.region);
  }

  lemma StateSurvives(plan: Plan, seen: Observation, region: Text, tags: seq<GT.Tag>, allowed: seq<Text>)
    requires GT.Accepted(tags, allowed)
    ensures LiveState(plan, seen, region, GT.Apply(seen.tags, tags)) == LiveState(plan, seen, region, seen.tags)
  {
    hide GT.Accepted, GT.Apply, SS.Build;
    GT.AcceptedKeepsSafetyState(seen.instanceId, plan.accountId, region, seen.tags, tags, allowed);
  }

  lemma GatesOfLiveChecks(h: AP.Hash, plan: Plan, cfg: Settings, seen: Observation, region: Text)
    requires plan.approval.Some? && LiveChecks(h, plan, cfg, seen, region).None?
    ensures GatesPassed(plan, seen.tags)
  {}

  // ----- exactly what passes -----

  /** The plan's account and the region are on the configured lists; in staging mode every list is configured. */
  predicate OnLists(plan: Plan, cfg: Settings, region: Text) {
    && (cfg.allowedAccounts == [] || plan.accountId in cfg.allowedAccounts)
    && (cfg.allowedRegions == [] || region in cfg.allowedRegions)
    && (cfg.staging ==> cfg.allowedAccounts != [] && cfg.allowedRegions != [] && cfg.allowedTagKeys != [])
  }

  /** The session is the executor role in the plan's account. */
  predicate RightSession(plan: Plan, seen: Observation) {
    seen.account == Some(plan.accountId) && seen.roleMatches
  }

  /** The payload's own requests: the tags, and where they go, by the plan where the payload is silent. */
  predicate Requests(plan: Plan, tags: seq<GT.Tag>, region: Text, target: Text) {
    var payload := plan.input.normalizedPayload;
    && payload.Obj? && GT.RequestedTags(payload) == Some(tags)
    && OrElse(payload, Lit("region"), plan.resourceRegion) == Str(region)
    && OrElse(payload, RESOURCE_KEY, plan.resourceId) == Str(target)
  }

  lemma LocallyPassesIff(plan: Plan, cfg: Settings, tags: seq<GT.Tag>, region: Text, target: Text)
    ensures LocalChecks(plan, cfg) == Proceed(tags, region, target) <==>
              Requests(plan, tags, region, target) && GT.Accepted(tags, cfg.allowedTagKeys)
              && OnLists(plan, cfg, region)
  {
    hide GT.RequestedTags, TagFailure, OrElse, GT.Accepted;
    if GT.Accepted(tags, cfg.allowedTagKeys) {
      AcceptedHasNoFailure(tags, cfg.allowedTagKeys, 0);
      AcceptedIsSomething(tags, cfg.allowedTagKeys);
    }
    if tags != [] && TagFailure(tags, cfg.allowedTagKeys, 0).None? { NoFailureAccepts(tags, cfg.allowedTagKeys); }
  }

  lemma AcceptedIsSomething(tags: seq<GT.Tag>, allowed: seq<Text>)
    requires GT.Accepted(tags, allowed)
    ensures tags != []
  {}

  /** The live instance is in the state the approval pins down, by fingerprint. */
  predicate InPinnedState(h: AP.Hash, plan: Plan, seen: Observation, region: Text)
    requires plan.approval.Some?
  {
    var live := LiveState(plan, seen, region, seen.tags);
    live.Ok? && AP.HashesEqual(plan.approval.value.fingerprint, Fingerprint(h, live.value))
  }

  lemma LivePassesIff(h: AP.Hash, plan: Plan, cfg: Settings, seen: Observation, region: Text)
    requires plan.approval.Some? && (cfg.allowedAccounts == [] || plan.accountId in cfg.allowedAccounts)
    ensures LiveChecks(h, plan, cfg, seen, region).None? <==>
              RightSession(plan, seen) && InPinnedState(h, plan, seen, region) && GatesPassed(plan, seen.tags)
  {
    hide SS.Build, Fingerprint, AP.HashesEqual;
    LitDiffers("sandbox", "prod");
    LitDiffers("staging", "prod");
  }

  /**
    A request goes out with these tags to this target exactly when the payload requests
    them, they are accepted, account and region are on the lists, the session is the right
    one, and the live instance is in the pinned state and passes the gates.
  */
  lemma ProceedsIff(h: AP.Hash, plan: Plan, cfg: Settings, seen: Observation, tags: seq<GT.Tag>, region: Text,
    target: Text)
    ensures Decide(h, plan, cfg, seen) == Proceed(tags, region, target) <==>
              && Requests(plan, tags, region, target) && GT.Accepted(tags, cfg.allowedTagKeys)
              && OnLists(plan, cfg, region) && RightSession(plan, seen)
              && plan.approval.Some? && InPinnedState(h, plan, seen, region) && GatesPassed(plan, seen.tags)
  {
    hide LocalChecks, LiveChecks, Requests, GT.Accepted, InPinnedState, GatesPassed;
    LocallyPassesIff(plan, cfg, tags, region, target);
    if plan.approval.Some? && OnLists(plan, cfg, region) { LivePassesIff(h, plan, cfg, seen, region); }
  }
}
