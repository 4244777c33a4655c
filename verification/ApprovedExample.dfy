/**
  A plan as simulating it in staging mode, approving it and queueing it leave it. It
  passes every check of the worker and of the reconciler, for any idempotency key, at any
  time before its approval expires, and for any hash with digests of the right shape. So
  the theorems about what is sent are about something, and what goes wrong with approved
  plans goes wrong with this one.
*/
module ApprovedExample {
  import opened Wrappers
  import opened Sorting
  import opened JsonText
  import opened Json
  import opened IsoTime
  import opened PlanRow
  import opened Protocol
  import opened Installation
  import PC = ProtocolCore
  import PP = ProtocolPayload
  import R = Reconciliation
  import PF = Preflight
  import AP = ApprovalPayload
  import SS = SafetyState
  import GT = GovernedTagging

  const INSTANCE: Text := Lit("i-00000000")
  const ACCOUNT: Text := Lit("000000000000")
  const REGION: Text := Lit("us-east-1")
  const OWNER: GT.Tag := GT.Tag(Lit("CloudShieldOwner"), Lit("ops"))

  // ----- what simulating the change stores -----

  /** An object literal. */
  function Named(names: seq<string>, values: seq<Value>): Value
    requires |names| == |values|
  {
    ObjectOf(Mapped(Lit, names), values)
  }

  function Word(s: string): Value {
    Str(Lit(s))
  }

  const ENTRY_NAMES: seq<string> := ["key", "value"]
  const ENTRY_VALUES := [Str(OWNER.key), Str(OWNER.value)]
  const ENTRY: Value := Named(ENTRY_NAMES, ENTRY_VALUES)

  const PAYLOAD_NAMES: seq<string> := ["operation", "awsAccountId", "region", "resourceId", "tags"]
  const PAYLOAD_VALUES := [Str(AP.TAGGING_OPERATION), Word("account"), Str(REGION), Str(INSTANCE), Arr([ENTRY])]
  const PAYLOAD: Value := Named(PAYLOAD_NAMES, PAYLOAD_VALUES)

  const ACTION_NAMES: seq<string> := ["operation", "requestedById", "expectedImpact"]
  const ACTION_VALUES := [Str(AP.TAGGING_OPERATION), Word("creator"), Word("The owner is shown.")]
  const ACTION: Value := Named(ACTION_NAMES, ACTION_VALUES)

  const SEEN_AT: Value := Word("2026-01-01T00:00:00.000Z")

  const LIVE_NAMES: seq<string> := ["CloudShieldManaged", "Environment"]
  const LIVE: Value := Named(LIVE_NAMES, [Word("true"), Word("sandbox")])

  const RESOURCE_NAMES: seq<string> := ["id", "resourceId", "arn", "resourceType", "region", "tags", "lastSeenAt"]
  const RESOURCE_VALUES :=
    [Word("resource"), Str(INSTANCE), Word("arn:aws:ec2:us-east-1:000000000000:instance/i-00000000"),
     Word("EC2_INSTANCE"), Str(REGION), LIVE, SEEN_AT]
  const RESOURCE: Value := Named(RESOURCE_NAMES, RESOURCE_VALUES)

  const FINDING_NAMES: seq<string> := ["id", "status", "workflowStatus", "lastSeenAt"]
  const FINDING: Value := Named(FINDING_NAMES, [Word("finding"), Word("OPEN"), Word("OPEN"), SEEN_AT])

  const BEFORE_NAMES: seq<string> := ["resource", "finding"]
  const BEFORE: Value := Named(BEFORE_NAMES, [RESOURCE, FINDING])

  const NEW_TAGS: Value := Named(["CloudShieldOwner"], [Str(OWNER.value)])
  const AFTER_NAMES: seq<string> := ["tags", "idempotent"]
  const AFTER: Value := Named(AFTER_NAMES, [NEW_TAGS, Bool(true)])

  const ROLLBACK_NAMES: seq<string> := ["operation", "resourceId", "resourceArn", "tagsAffected"]
  const ROLLBACK_VALUES :=
    [Word("RESTORE_PREVIOUS_TAGS_SEPARATE_APPROVAL"), Str(INSTANCE), Null, Arr([Str(OWNER.key)])]
  const ROLLBACK: Value := Named(ROLLBACK_NAMES, ROLLBACK_VALUES)

  /** What is approved: the columns that the simulation in staging mode sets, and that the approval is bound to. */
  function Approved(key: Text, expiresAt: Instant): AP.Input {
    AP.Input(Lit("org"), Lit("plan"), Lit("creator"), Some(AP.TAGGING_OPERATION), Some(Lit("APPLY_GOVERNANCE_TAGS")),
             ACTION, PAYLOAD, BEFORE, AFTER, ROLLBACK, Lit("staging"), Some(key), Some(expiresAt), None)
  }

  /** A managed, unprotected sandbox instance. */
  const STATE: SS.State :=
    SS.State(SS.SCHEMA_VERSION, SS.POLICY_VERSION, INSTANCE, ACCOUNT, REGION,
             [SS.ControlTag(true, Some(Lit("true"))), SS.ControlTag(false, None),
                 SS.ControlTag(true, Some(Lit("sandbox")))])

  /** Staging mode, with the account, the region and the tag key on the allow-lists. */
  const SETTINGS: PF.Settings := PF.Settings(true, [ACCOUNT], [REGION], [OWNER.key])

  /** The approval request takes its expiry from the plan. */
  function Approval(h: AP.Hash, key: Text, expiresAt: Instant): PF.Approval {
    PF.Approval(Lit("request"), Lit("plan"), Lit("org"), true, Lit("creator"), Some(Lit("approver")), Some(expiresAt),
                Some(h(CanonicalText(AP.Build(Approved(key, expiresAt))))), Some(h(SS.FingerprintText(STATE))),
                SS.SCHEMA_VERSION, SS.POLICY_VERSION, Some(0), SS.ToJson(STATE))
  }

  function Plan(h: AP.Hash, key: Text, expiresAt: Instant): PF.Plan {
    PF.Plan(Approved(key, expiresAt), Some(Lit("request")), Some(Approval(h, key, expiresAt)), Some(Lit("org")),
            INSTANCE, REGION, Some(Lit("org")), ACCOUNT, Lit("sandbox"))
  }

  /** What the provider shows before the change. */
  function Before(): PF.Observation {
    PF.Observation(Some(ACCOUNT), true, INSTANCE, SS.ControlTagsToInput(STATE.controlTags))
  }

  function Sent(h: AP.Hash, key: Text, expiresAt: Instant, now: int): Request {
    Request(Plan(h, key, expiresAt), Before(), [OWNER], INSTANCE, key, now)
  }

  ghost predicate GoodDigests(h: AP.Hash) {
    forall t :: AP.IsDigest(h(t))
  }

  // ----- the parts are well formed -----

  /** Names told apart by their lengths or by their first two characters. */
  predicate Apart(names: seq<string>) {
    && (forall i | 0 <= i < |names| ::
          |names[i]| >= 2 && names[i][0] < 128 as char && names[i][1] < 128 as char)
    && forall i, j | 0 <= i < j < |names| :: Differ(names[i], names[j])
  }

  predicate Differ(a: string, b: string)
    requires |a| >= 2 && |b| >= 2
  {
    |a| != |b| || a[0] != b[0] || a[1] != b[1]
  }

  /** An object literal is JSON, and reads back what it was made of. */
  lemma NamedReads(names: seq<string>, values: seq<Value>)
    requires |names| == |values| && Apart(names) && forall v | v in values :: IsJson(v)
    ensures IsJson(Named(names, values))
    ensures forall i | 0 <= i < |names| :: Get(Named(names, values).fields, Lit(names[i])) == values[i]
  {
    hide IsJson;
    var keys := Mapped(Lit, names);
    forall i, j | 0 <= i < j < |keys| ensures keys[i] != keys[j] { LitDiffers(names[i], names[j]); }
    SS.ObjectOfIsJson(keys, values);
    forall i | 0 <= i < |names| ensures Get(Named(names, values).fields, Lit(names[i])) == values[i] {
      GetOfObject(keys, values, i);
    }
  }

  lemma {:induction false} GetOfObject(keys: seq<Text>, values: seq<Value>, i: nat)
    requires |keys| == |values| && Distinct(keys) && i < |keys|
    ensures Get(ObjectOf(keys, values).fields, keys[i]) == values[i]
  {
    var fields := ObjectOf(keys, values).fields;
    IndexOfKey(fields, i);
  }

  lemma ValuesAreJson()
    ensures forall t: Text :: IsJson(Str(t))
    ensures IsJson(Null) && forall b :: IsJson(Bool(b))
    ensures forall v :: IsJson(v) ==> IsJson(Arr([v]))
  {}

  lemma EntryReads()
    ensures IsJson(ENTRY)
    ensures Get(ENTRY.fields, GT.KEY) == Str(OWNER.key) && Get(ENTRY.fields, GT.VALUE) == Str(OWNER.value)
  {
    hide IsJson, Get;
    ValuesAreJson();
    NamedReads(ENTRY_NAMES, ENTRY_VALUES);
    assert ENTRY_NAMES[0] == "key" && ENTRY_NAMES[1] == "value";
  }

  lemma PayloadReads()
    ensures IsJson(PAYLOAD) && IsJson(ENTRY)
    ensures Get(PAYLOAD.fields, AP.OPERATION_KEY) == Str(AP.TAGGING_OPERATION)
    ensures Get(PAYLOAD.fields, PF.RESOURCE_KEY) == Str(INSTANCE)
    ensures Get(PAYLOAD.fields, Lit("region")) == Str(REGION)
    ensures Get(PAYLOAD.fields, AP.TAGS_KEY) == Arr([ENTRY])
    ensures Get(ENTRY.fields, GT.KEY) == Str(OWNER.key) && Get(ENTRY.fields, GT.VALUE) == Str(OWNER.value)
  {
    hide IsJson, Get;
    EntryReads();
    ValuesAreJson();
    NamedReads(PAYLOAD_NAMES, PAYLOAD_VALUES);
    assert PAYLOAD_NAMES[0] == "operation" && PAYLOAD_NAMES[2] == "region" && PAYLOAD_NAMES[3] == "resourceId"
        && PAYLOAD_NAMES[4] == "tags";
  }

  lemma ActionIsJson()
    ensures IsJson(ACTION)
  {
    hide IsJson, Get;
    ValuesAreJson();
    NamedReads(ACTION_NAMES, ACTION_VALUES);
  }

  lemma BeforeIsJson()
    ensures IsJson(BEFORE)
  {
    hide IsJson, Get;
    ResourceIsJson();
    FindingIsJson();
    NamedReads(BEFORE_NAMES, [RESOURCE, FINDING]);
  }

  lemma ResourceIsJson()
    ensures IsJson(RESOURCE)
  {
    hide IsJson, Get;
    ValuesAreJson();
    LiveIsJson();
    NamedReads(RESOURCE_NAMES, RESOURCE_VALUES);
  }

  lemma LiveIsJson()
    ensures IsJson(LIVE)
  {
    hide IsJson, Get;
    ValuesAreJson();
    NamedReads(LIVE_NAMES, [Word("true"), Word("sandbox")]);
  }

  lemma FindingIsJson()
    ensures IsJson(FINDING)
  {
    hide IsJson, Get;
    ValuesAreJson();
    NamedReads(FINDING_NAMES, [Word("finding"), Word("OPEN"), Word("OPEN"), SEEN_AT]);
  }

  lemma AfterIsJson()
    ensures IsJson(AFTER)
  {
    hide IsJson, Get;
    ValuesAreJson();
    NamedReads(["CloudShieldOwner"], [Str(OWNER.value)]);
    NamedReads(AFTER_NAMES, [NEW_TAGS, Bool(true)]);
  }

  lemma RollbackIsJson()
    ensures IsJson(ROLLBACK)
  {
    hide IsJson, Get;
    ValuesAreJson();
    NamedReads(ROLLBACK_NAMES, ROLLBACK_VALUES);
  }

  lemma RegionParses()
    ensures SS.IsRegion(REGION) && GT.IsReconcilerRegion(REGION)
  {
    var tail := REGION[2..];
    var last := tail[5..];
    assert SS.AlphanumericRun(tail[1..]) == 4 by {
      var t := tail[1..];
      assert SS.AlphanumericRun(t[4..]) == 0;
      assert t[3..][1..] == t[4..] && SS.AlphanumericRun(t[3..]) == 1;
      assert t[2..][1..] == t[3..] && SS.AlphanumericRun(t[2..]) == 2;
      assert t[1..][1..] == t[2..] && SS.AlphanumericRun(t[1..]) == 3;
    }
    assert SS.AlphanumericRun(last[1..]) == 1 by { assert last[1..][1..] == []; }
    assert SS.RegionTail(last, true);
    assert GT.RegionSuffix(tail);
  }

  lemma StateIsValid()
    ensures SS.Valid(STATE)
  {
    RegionParses();
  }

  /** The tags read back from the state are the two that it has. */
  lemma BeforeTags()
    ensures var tags := SS.ControlTagsToInput(STATE.controlTags);
            && PF.Has(tags, PF.MANAGED, Lit("true")) && PF.Has(tags, PF.ENVIRONMENT, Lit("sandbox"))
            && PF.PROTECTED !in tags && OWNER.key !in tags
  {
    SS.ControlKeysDiffer();
    SS.InputTags(STATE.controlTags, 3, 0);
    SS.InputTags(STATE.controlTags, 3, 1);
    SS.InputTags(STATE.controlTags, 3, 2);
    OwnerIsFree();
    OnlyControlTags(STATE.controlTags, 3, OWNER.key);
  }

  lemma {:induction false} OnlyControlTags(tags: seq<SS.ControlTag>, n: nat, key: Text)
    requires |tags| == 3 && n <= 3 && key !in SS.CONTROL_KEYS
    ensures key !in SS.ControlTagsToInput(tags, n)
  {
    if n > 0 { OnlyControlTags(tags, n - 1, key); }
  }

  lemma OwnerIsFree()
    ensures OWNER.key !in SS.CONTROL_KEYS && !GT.IsBlank(OWNER.key) && !GT.IsReserved(OWNER.key)
  {
    LitDiffers("CloudShieldOwner", "CloudShieldManaged");
    LitDiffers("CloudShieldOwner", "CloudShieldProtected");
    LitDiffers("CloudShieldOwner", "Environment");
    assert OWNER.key[0] == 0x43 && !GT.IsSpace(OWNER.key[0]);
  }

  // ----- it passes -----

  lemma PayloadHashes(h: AP.Hash, key: Text, expiresAt: Instant)
    requires GoodDigests(h)
    ensures AP.JsonInput(Approved(key, expiresAt))
    ensures PF.PayloadHashMatches(h, Plan(h, key, expiresAt), Approval(h, key, expiresAt))
  {
    hide CanonicalText, AP.Build, AP.IsDigest, IsJson;
    var approved := Approved(key, expiresAt);
    PayloadReads();
    ActionIsJson();
    BeforeIsJson();
    AfterIsJson();
    RollbackIsJson();
    AP.PayloadIsJson(approved);
    JsonIsSupported(AP.Build(approved));
  }

  lemma JsonIsSupported(v: Value)
    requires IsJson(v)
    ensures Supported(v)
  {}

  lemma FingerprintIsGood(h: AP.Hash, key: Text, expiresAt: Instant)
    requires GoodDigests(h)
    ensures PF.FingerprintProblem(h, Approval(h, key, expiresAt)).None?
  {
    StateIsValid();
    SS.EvidenceRoundTrip(STATE);
    PF.FingerprintOfValid(h, STATE);
    FingerprintPasses(h, Approval(h, key, expiresAt), STATE);
  }

  /** What the fingerprint check comes down to. */
  lemma FingerprintPasses(h: AP.Hash, a: PF.Approval, state: SS.State)
    requires a.fingerprint.Some? && AP.IsDigest(a.fingerprint.value) && a.capturedAt.Some?
    requires a.fingerprintSchemaVersion == SS.SCHEMA_VERSION && a.fingerprintPolicyVersion == SS.POLICY_VERSION
    requires SS.Parse(a.evidence, SS.SCHEMA_VERSION, SS.POLICY_VERSION) == Ok(state)
    requires PF.Fingerprint(h, state) == a.fingerprint
    ensures PF.FingerprintProblem(h, a).None?
  {
    hide SS.Parse, PF.Fingerprint;
  }

  /** What the approval check comes down to. */
  lemma ApprovalPasses(h: AP.Hash, plan: PF.Plan, a: PF.Approval, now: int)
    requires plan.approval == Some(a) && plan.approvedByRequestId == Some(a.id) && a.id != [] && a.approved
    requires a.remediationPlanId == plan.input.remediationPlanId && a.organizationId == plan.input.organizationId
    requires a.approvedById.Some? && a.approvedById.value != [] && a.approvedById.value != a.requestedById
    requires (a.expiresAt.Some? ==> now <= a.expiresAt.value) && a.payloadHash.Some? && a.payloadHash.value != []
    requires PF.PayloadHashMatches(h, plan, a) && PF.FingerprintProblem(h, a).None?
    ensures Verified(h, plan, now)
  {
    hide PF.PayloadHashMatches, PF.FingerprintProblem;
  }

  lemma DigestIsText(h: AP.Hash, t: Text)
    requires GoodDigests(h)
    ensures h(t) != []
  {
    assert AP.IsDigest(h(t));
  }

  /** The approval check. */
  lemma IsVerified(h: AP.Hash, key: Text, expiresAt: Instant, now: int)
    requires GoodDigests(h) && now <= expiresAt
    ensures Verified(h, Plan(h, key, expiresAt), now)
  {
    hide Verified, PF.PayloadHashMatches, PF.FingerprintProblem, AP.Build, CanonicalText, AP.IsDigest, GoodDigests,
         SS.FingerprintText, SS.ToJson, AP.JsonInput;
    PayloadHashes(h, key, expiresAt);
    FingerprintIsGood(h, key, expiresAt);
    LitDiffers("creator", "approver");
    DigestIsText(h, CanonicalText(AP.Build(Approved(key, expiresAt))));
    ApprovalPasses(h, Plan(h, key, expiresAt), Approval(h, key, expiresAt), now);
  }

  lemma TagsAreRequested()
    ensures GT.RequestedTags(PAYLOAD) == Some([OWNER]) && PF.TagFailure([OWNER], [OWNER.key], 0).None?
    ensures PF.OrElse(PAYLOAD, Lit("region"), REGION) == Str(REGION)
        && PF.OrElse(PAYLOAD, PF.RESOURCE_KEY, INSTANCE) == Str(INSTANCE)
  {
    hide Get, PF.TagFailure;
    PayloadReads();
    assert GT.RequestedTag(ENTRY) == Some(OWNER);
    assert Mapped(GT.RequestedTag, [ENTRY]) == [Some(OWNER)];
    assert Mapped(GT.Unwrap, [Some(OWNER)]) == [OWNER];
    OwnerPasses();
  }

  lemma OwnerPasses()
    ensures PF.TagFailure([OWNER], [OWNER.key], 0).None?
  {
    hide GT.IsBlank, GT.IsReserved;
    OwnerIsFree();
    assert [OWNER][..0] == [];
    assert PF.TagFailure([OWNER], [OWNER.key], 1).None?;
  }

  /** What the live checks come down to for a sandbox instance on the allow-lists. */
  lemma LivePasses(h: AP.Hash, plan: PF.Plan, seen: PF.Observation, region: Text, state: SS.State)
    requires plan.approval.Some? && seen.account == Some(plan.accountId) && plan.accountId == ACCOUNT
    requires seen.roleMatches
    requires PF.LiveState(plan, seen, region, seen.tags) == Ok(state)
    requires AP.HashesEqual(plan.approval.value.fingerprint, PF.Fingerprint(h, state))
    requires PF.Has(seen.tags, PF.MANAGED, Lit("true")) && PF.PROTECTED !in seen.tags
    requires PF.Has(seen.tags, PF.ENVIRONMENT, Lit("sandbox"))
    ensures PF.LiveChecks(h, plan, SETTINGS, seen, region).None?
  {
    hide SS.Build, PF.Fingerprint, AP.HashesEqual;
    LitDiffers("sandbox", "prod");
  }

  lemma LiveStateMatches(h: AP.Hash, key: Text, expiresAt: Instant)
    requires GoodDigests(h)
    ensures PF.LiveState(Plan(h, key, expiresAt), Before(), REGION, Before().tags) == Ok(STATE)
    ensures PF.LiveChecks(h, Plan(h, key, expiresAt), SETTINGS, Before(), REGION).None?
  {
    hide SS.Build, PF.Fingerprint, AP.IsDigest, SS.FingerprintText, SS.Valid, SS.ControlTagsToInput, PF.LiveChecks,
        PF.Has;
    StateIsValid();
    SS.RebuildIsIdentity(STATE);
    PF.FingerprintOfValid(h, STATE);
    BeforeTags();
    assert AP.IsDigest(h(SS.FingerprintText(STATE)));
    LivePasses(h, Plan(h, key, expiresAt), Before(), REGION, STATE);
  }

  /** What the checks before any provider call come down to. */
  lemma LocallyPasses(plan: PF.Plan, tags: seq<GT.Tag>, region: Text, target: Text)
    requires plan.input.normalizedPayload.Obj? && plan.accountId == ACCOUNT && region == REGION
    requires GT.RequestedTags(plan.input.normalizedPayload) == Some(tags) && tags != []
    requires PF.TagFailure(tags, [OWNER.key], 0).None?
    requires PF.OrElse(plan.input.normalizedPayload, Lit("region"), plan.resourceRegion) == Str(region)
    requires PF.OrElse(plan.input.normalizedPayload, PF.RESOURCE_KEY, plan.resourceId) == Str(target)
    ensures PF.LocalChecks(plan, SETTINGS) == PF.Proceed(tags, region, target)
  {
    hide GT.RequestedTags, PF.TagFailure, PF.OrElse;
  }

  lemma Decides(h: AP.Hash, key: Text, expiresAt: Instant)
    requires GoodDigests(h)
    ensures PF.Decide(h, Plan(h, key, expiresAt), SETTINGS, Before()) == PF.Proceed([OWNER], REGION, INSTANCE)
  {
    hide GT.RequestedTags, PF.TagFailure, PF.LiveChecks, PF.OrElse, PF.LocalChecks;
    TagsAreRequested();
    LiveStateMatches(h, key, expiresAt);
    LocallyPasses(Plan(h, key, expiresAt), [OWNER], REGION, INSTANCE);
  }

  lemma PassesGates(h: AP.Hash, key: Text, expiresAt: Instant)
    ensures PF.OperationGate(Plan(h, key, expiresAt)) && !GT.AllPresent([OWNER], Before().tags)
  {
    PayloadReads();
    BeforeTags();
    assert [OWNER][0] == OWNER;
  }

  /** Every check a request has to pass. */
  lemma IsSendable(h: AP.Hash, key: Text, expiresAt: Instant, now: int, maxAttempts: int, staleMs: int)
    requires GoodDigests(h) && now < expiresAt
    ensures R.Sendable(Configured(h, SETTINGS, maxAttempts, staleMs), Sent(h, key, expiresAt, now))
    ensures PC.Cleared(Configured(h, SETTINGS, maxAttempts, staleMs), Sent(h, key, expiresAt, now))
  {
    hide Verified, PF.Decide, PF.OperationGate, GT.AllPresent, ACTION, PAYLOAD, BEFORE, AFTER, ROLLBACK, SS.ToJson,
         AP.Build, CanonicalText, SS.FingerprintText, SETTINGS, STATE;
    IsVerified(h, key, expiresAt, now);
    Decides(h, key, expiresAt);
    PassesGates(h, key, expiresAt);
    assert Configured(h, SETTINGS, maxAttempts, staleMs).verified(Plan(h, key, expiresAt), now);
  }

  /** What the reconciler's validation comes down to. */
  lemma TargetPasses(plan: PF.Plan, a: PF.Approval, tags: seq<GT.Tag>)
    requires plan.input.allowlistedOperation == Some(AP.TAGGING_OPERATION)
    requires plan.resourceOrganizationId == plan.accountOrganizationId == Some(plan.input.organizationId)
    requires plan.input.normalizedPayload.Obj? && GT.ApprovedTags(plan.input.normalizedPayload) == Some(tags)
    requires Get(plan.input.normalizedPayload.fields, PF.RESOURCE_KEY) == Str(plan.resourceId)
    requires Get(plan.input.normalizedPayload.fields, Lit("region")) == Str(plan.resourceRegion)
    requires plan.approval == Some(a) && plan.approvedByRequestId == Some(a.id) && a.id != [] && a.approved
    requires a.remediationPlanId == plan.input.remediationPlanId && a.organizationId == plan.input.organizationId
    ensures ApprovedTarget(plan) == Some(Target(plan.resourceId, tags))
  {
    hide GT.ApprovedTags, Get;
  }

  /** What the reconciler's checks around the tags come down to. */
  lemma TargetIsFine(payload: Value, id: Text, region: Text, items: seq<Value>)
    requires payload.Obj? && Get(payload.fields, Lit("resourceId")) == Str(id)
        && Get(payload.fields, Lit("region")) == Str(region)
    requires Get(payload.fields, AP.TAGS_KEY) == Arr(items) && items != []
    requires SS.IsInstanceId(id) && GT.IsReconcilerRegion(region)
    ensures GT.TargetProblem(payload).None?
  {
    hide Get, SS.IsInstanceId, GT.IsReconcilerRegion;
  }

  lemma PayloadIsTarget()
    ensures GT.ApprovedTags(PAYLOAD) == Some([OWNER])
  {
    hide GT.RequestedTags, GT.StrictEntries, GT.IsReconcilerRegion, GT.TargetProblem, Get, SS.IsInstanceId;
    PayloadReads();
    RegionParses();
    StateIsValid();
    TagsAreRequested();
    EntryIsStrict();
    TargetIsFine(PAYLOAD, INSTANCE, REGION, [ENTRY]);
  }

  /** The reconciler reads the same target. */
  lemma IsTarget(h: AP.Hash, key: Text, expiresAt: Instant)
    ensures ApprovedTarget(Plan(h, key, expiresAt)) == Some(Target(INSTANCE, [OWNER]))
  {
    hide ApprovedTarget, GT.ApprovedTags, Get;
    PayloadReads();
    PayloadIsTarget();
    TargetPasses(Plan(h, key, expiresAt), Approval(h, key, expiresAt), [OWNER]);
  }

  /** What the reconciler's check of one tag comes down to. */
  lemma EntryIsFine(entry: Value, tag: GT.Tag)
    requires entry.Obj? && HasExactly(entry.fields, GT.ENTRY_KEYS)
    requires Get(entry.fields, GT.KEY) == Str(tag.key) && Get(entry.fields, GT.VALUE) == Str(tag.value)
    requires tag.key != [] && |tag.key| <= 128 && |tag.value| <= 256 && !GT.IsReserved(tag.key)
    ensures GT.EntryProblem(entry, {}).None?
  {
    hide Get, HasExactly, GT.IsReserved;
  }

  lemma EntryIsStrict()
    ensures GT.StrictEntries([ENTRY])
  {
    hide GT.EntryProblem, Get, GT.IsReserved;
    PayloadReads();
    OwnerIsFree();
    assert ENTRY.fields[0] in ENTRY.fields && ENTRY.fields[1] in ENTRY.fields;
    EntryIsFine(ENTRY, OWNER);
    assert [ENTRY][..0] == [] && GT.ApprovedKeys([]) == {};
  }

  // ----- what follows -----

  /** The routes lead there: simulating, requesting, approving and queueing a plan without an approval. */
  lemma IsReached(h: AP.Hash, key: Text, expiresAt: Instant, cfg: Config, s: State)
    requires Init(s) && !Bound(s.shared.row)
    ensures Run(cfg, s, R.RoutesTo(Plan(h, key, expiresAt), key, expiresAt)).shared.row
         == R.QueuedRow(Plan(h, key, expiresAt))
  {
    hide Run, R.RoutesTo;
    R.QueuedIsReached(cfg, s, Plan(h, key, expiresAt), key, expiresAt);
  }

  /** What `EverySendIsApproved` asks of a request holds of this one, and the request is sent in some run. */
  lemma IsSentAsApproved(h: AP.Hash, key: Text, expiresAt: Instant, now: int, maxAttempts: int, staleMs: int)
    returns (s: State, events: seq<Event>)
    requires GoodDigests(h) && now < expiresAt
    ensures var q, approved := Sent(h, key, expiresAt, now), Approved(key, expiresAt);
            && Init(s) && q in Run(Configured(h, SETTINGS, maxAttempts, staleMs), s, events).shared.sends
            && ApprovedAs(h, SETTINGS, q, approved) && CarriesApproval(SETTINGS, q, approved)
            && PF.Answers(q.before, q.target)
  {
    hide Run, R.Sendable, PC.Cleared, Configured, CarriesApproval, ApprovedAs;
    var cfg := Configured(h, SETTINGS, maxAttempts, staleMs);
    IsSendable(h, key, expiresAt, now, maxAttempts, staleMs);
    s := R.Untouched(R.QueuedRow(Plan(h, key, expiresAt)));
    events := R.DeliverySends(cfg, Sent(h, key, expiresAt, now), Unclear(None), None);
    IsApprovedAs(h, key, expiresAt, now);
    ClearedIsApproved(h, SETTINGS, maxAttempts, staleMs, Sent(h, key, expiresAt, now), Approved(key, expiresAt));
  }

  lemma IsApprovedAs(h: AP.Hash, key: Text, expiresAt: Instant, now: int)
    requires GoodDigests(h) && now < expiresAt
    ensures ApprovedAs(h, SETTINGS, Sent(h, key, expiresAt, now), Approved(key, expiresAt))
  {
    hide CanonicalText, AP.Build, SS.Parse, SS.ToJson, SS.Build, PF.Decide, AP.JsonInput, SS.FingerprintText, IsJson,
        SS.Valid, ACTION, PAYLOAD, BEFORE, AFTER, ROLLBACK, PF.LiveChecks, STATE;
    PayloadHashes(h, key, expiresAt);
    StateIsValid();
    SS.EvidenceRoundTrip(STATE);
    LiveStateMatches(h, key, expiresAt);
    Decides(h, key, expiresAt);
    JsonIsWellFormed(SS.ToJson(STATE));
    assert AP.IsDigest(h(CanonicalText(AP.Build(Approved(key, expiresAt)))));
  }

  lemma JsonIsWellFormed(v: Value)
    requires IsJson(v)
    ensures WellFormed(v)
  {}

  /** An approved plan whose request is out can be stranded, whatever the budget. */
  lemma CanBeStranded(h: AP.Hash, key: Text, expiresAt: Instant, now: int, maxAttempts: int, staleMs: int)
    returns (s: State, events: seq<Event>)
    requires GoodDigests(h) && now < expiresAt
    ensures var cfg := Configured(h, SETTINGS, maxAttempts, staleMs);
            var t := Run(cfg, s, events);
            && Init(s) && t.shared.sends == [Sent(h, key, expiresAt, now)]
            && t.shared.row.outcome == OutcomeUnknown && t.shared.row.status == InProgress
            && forall later :: !Candidate(t.shared.row, later, staleMs, MaxAttempts(cfg))
  {
    hide Run, R.Sendable, PC.Cleared, Candidate;
    var cfg := Configured(h, SETTINGS, maxAttempts, staleMs);
    IsSendable(h, key, expiresAt, now, maxAttempts, staleMs);
    IsTarget(h, key, expiresAt);
    s := R.Untouched(R.QueuedRow(Plan(h, key, expiresAt)));
    events := R.StrandedByCrash(cfg, Sent(h, key, expiresAt, now));
  }

  /** It can be lost: a crash between the claim and the barrier leaves it executing for good. */
  lemma CanBeLost(h: AP.Hash, key: Text, expiresAt: Instant, now: int, maxAttempts: int, staleMs: int)
    returns (s: State, events: seq<Event>)
    requires GoodDigests(h) && now < expiresAt
    ensures var cfg := Configured(h, SETTINGS, maxAttempts, staleMs);
            var r := Run(cfg, s, events).shared.row;
            && Init(s) && r.lifecycle == Executing && r.outcome == NotAttempted
            && forall later :: !Candidate(r, later, staleMs, MaxAttempts(cfg))
  {
    hide Run, R.Sendable, PC.Cleared, Candidate;
    var cfg := Configured(h, SETTINGS, maxAttempts, staleMs);
    IsSendable(h, key, expiresAt, now, maxAttempts, staleMs);
    s := R.Untouched(R.QueuedRow(Plan(h, key, expiresAt)));
    events := R.LostByCrash(cfg, Sent(h, key, expiresAt, now));
  }

  /** An approved plan that is simulated again after its request can be left with one of its two ids. */
  lemma CanSplitIds(
      h: AP.Hash, key: Text, expiresAt: Instant, now: int, maxAttempts: int, staleMs: int, id: Text, renewed: Instant)
    returns (s: State, events: seq<Event>)
    requires GoodDigests(h) && now < expiresAt
    ensures var r := Run(Configured(h, SETTINGS, maxAttempts, staleMs), s, events).shared.row;
            Init(s) && r.providerId == None && r.awsId == Some(id)
  {
    hide Run, R.Sendable, PC.Cleared, Configured;
    var cfg := Configured(h, SETTINGS, maxAttempts, staleMs);
    IsSendable(h, key, expiresAt, now, maxAttempts, staleMs);
    s := R.Untouched(R.QueuedRow(Plan(h, key, expiresAt)));
    events := R.ResimulationCanSplitIds(cfg, Sent(h, key, expiresAt, now), id, renewed);
  }

  lemma OwnerIsPresent()
    ensures GT.AllPresent([OWNER], map[OWNER.key := OWNER.value])
  {
    assert [OWNER][0] == OWNER;
  }

  /** And it can be confirmed: a later reading that shows the tag settles it. */
  lemma CanBeConfirmed(h: AP.Hash, key: Text, expiresAt: Instant, now: int, maxAttempts: int, staleMs: int)
    returns (s: State, events: seq<Event>)
    requires GoodDigests(h) && now < expiresAt
    ensures var cfg := Configured(h, SETTINGS, maxAttempts, staleMs);
            && Init(s) && PP.KeepsPayload(cfg, s, events)
            && Run(cfg, s, events).shared.row.outcome == ConfirmedSucceeded
  {
    hide Run, R.Sendable, PC.Cleared, Verified, PF.Decide, PF.OperationGate, ApprovedTarget, GT.AllPresent, R.Untouched,
         R.QueuedRow, Init, PP.KeepsPayload;
    var cfg := Configured(h, SETTINGS, maxAttempts, staleMs);
    IsSendable(h, key, expiresAt, now, maxAttempts, staleMs);
    IsTarget(h, key, expiresAt);
    s := R.Untouched(R.QueuedRow(Plan(h, key, expiresAt)));
    var shown := Reading(INSTANCE, map[OWNER.key := OWNER.value]);
    assert GT.AllPresent([OWNER], shown.tags) by { OwnerIsPresent(); }
    events := R.ConfirmedByReading(cfg, Sent(h, key, expiresAt, now), Target(INSTANCE, [OWNER]), shown);
    PP.NoRouteKeepsPayload(cfg, s, events);
  }
}
