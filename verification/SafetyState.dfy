/**
  The EC2 tag safety state: the part of an instance that an approval pins down, its
  JSON evidence, the strict parser for that evidence, and the drift report.
*/
module SafetyState {
  import opened Wrappers
  import opened Sorting
  import opened JsonText
  import opened Json

  const SCHEMA_VERSION: Text := Lit("1")
  const POLICY_VERSION: Text := Lit("ec2-governance-tag-safety-v1")

  const CONTROL_KEYS: seq<Text> := [Lit("CloudShieldManaged"), Lit("CloudShieldProtected"), Lit("Environment")]
  const TAG_FIELDS: seq<Text> := [Lit("present"), Lit("value")]
  const STATE_FIELDS: seq<Text> :=
    [Lit("schemaVersion"), Lit("policyVersion"), Lit("resourceId"), Lit("accountId"), Lit("region"), Lit("controlTags")]

  datatype ControlTag = ControlTag(present: bool, value: Option<Text>)

  /** `controlTags` lists the tags in the order of `CONTROL_KEYS`. */
  datatype State = State(
    schemaVersion: Text,
    policyVersion: Text,
    resourceId: Text,
    accountId: Text,
    region: Text,
    controlTags: seq<ControlTag>)

  // ----- identifiers -----

  predicate IsDigit(u: CodeUnit) { 0x30 <= u <= 0x39 }

  predicate IsLower(u: CodeUnit) { 0x61 <= u <= 0x7A }

  predicate IsHex(u: CodeUnit) { IsDigit(u) || 0x61 <= u <= 0x66 }

  /** `^i-[0-9a-f]{8,17}$` */
  predicate IsInstanceId(t: Text) {
    10 <= |t| <= 19 && t[0] == 0x69 && t[1] == 0x2D && forall i | 2 <= i < |t| :: IsHex(t[i])
  }

  /** `^\d{12}$` */
  predicate IsAccountId(t: Text) {
    |t| == 12 && forall i | 0 <= i < |t| :: IsDigit(t[i])
  }

  function AlphanumericRun(t: Text): (n: nat)
    ensures n <= |t|
  {
    if t != [] && (IsLower(t[0]) || IsDigit(t[0])) then 1 + AlphanumericRun(t[1..]) else 0
  }

  /** `(?:-[a-z0-9]+)+-\d$`, where `seen` says that a first group has been passed. */
  predicate RegionTail(t: Text, seen: bool) {
    && |t| >= 2 && t[0] == 0x2D
    && var n := AlphanumericRun(t[1..]);
       && n >= 1
       && (if 1 + n == |t| then seen && n == 1 && IsDigit(t[1]) else RegionTail(t[1 + n..], true))
  }

  /** `^[a-z]{2}(?:-[a-z0-9]+)+-\d$` */
  predicate IsRegion(t: Text) {
    |t| >= 2 && IsLower(t[0]) && IsLower(t[1]) && RegionTail(t[2..], false)
  }

  // ----- building -----

  function ReadControlTag(tags: map<Text, Text>, key: Text): Result<ControlTag, string> {
    if key !in tags then Ok(ControlTag(false, None))
    else if |tags[key]| > 256 then Err("Invalid AWS control tag value.")
    else Ok(ControlTag(true, Some(tags[key])))
  }

  /** `tags` lists the defined tags of the instance. */
  function Build(resourceId: Text, accountId: Text, region: Text, tags: map<Text, Text>,
                 schemaVersion: Text, policyVersion: Text): Result<State, string>
  {
    if schemaVersion != SCHEMA_VERSION then Err("Unsupported resource state fingerprint schema version.")
    else if policyVersion != POLICY_VERSION then Err("Unsupported resource state fingerprint policy version.")
    else if !IsInstanceId(resourceId) then Err("Invalid EC2 resource ID.")
    else if !IsAccountId(accountId) then Err("Invalid AWS account ID.")
    else if !IsRegion(region) then Err("Invalid AWS region.")
    else
      var managed := ReadControlTag(tags, CONTROL_KEYS[0]);
      var guarded := ReadControlTag(tags, CONTROL_KEYS[1]);
      var environment := ReadControlTag(tags, CONTROL_KEYS[2]);
      if managed.Err? then Err(managed.error)
      else if guarded.Err? then Err(guarded.error)
      else if environment.Err? then Err(environment.error)
      else Ok(State(schemaVersion, policyVersion, resourceId, accountId, region,
                    [managed.value, guarded.value, environment.value]))
  }

  predicate ValidTag(tag: ControlTag) {
    tag.present == tag.value.Some? && (tag.value.Some? ==> |tag.value.value| <= 256)
  }

  /** What every built state satisfies, and nothing else does. */
  predicate Valid(s: State) {
    && s.schemaVersion == SCHEMA_VERSION && s.policyVersion == POLICY_VERSION
    && IsInstanceId(s.resourceId) && IsAccountId(s.accountId) && IsRegion(s.region)
    && |s.controlTags| == 3 && ValidTag(s.controlTags[0]) && ValidTag(s.controlTags[1]) && ValidTag(s.controlTags[2])
  }

  lemma ControlKeysDiffer()
    ensures Distinct(CONTROL_KEYS) && Distinct(TAG_FIELDS) && Distinct(STATE_FIELDS)
    ensures |CONTROL_KEYS| == 3 && |TAG_FIELDS| == 2 && |STATE_FIELDS| == 6
  {
    LitDiffers("CloudShieldManaged", "CloudShieldProtected");
    LitDiffers("CloudShieldManaged", "Environment");
    LitDiffers("CloudShieldProtected", "Environment");
    LitDiffers("present", "value");
    LitDiffers("schemaVersion", "policyVersion");
    assert forall i, j | 0 <= i < j < 6 :: |STATE_FIELDS[i]| == |STATE_FIELDS[j]| ==> i == 0 && j == 1;
  }

  /** The entries of `controlTagsToInput` for the first `n` control keys. */
  function ControlTagsToInput(tags: seq<ControlTag>, n: nat := 3): map<Text, Text>
    requires |tags| == 3 && n <= 3
  {
    if n == 0 then map[]
    else
      var rest := ControlTagsToInput(tags, n - 1);
      if tags[n - 1].present && tags[n - 1].value.Some? then rest[CONTROL_KEYS[n - 1] := tags[n - 1].value.value]
          else rest
  }

  lemma {:induction false} InputTags(tags: seq<ControlTag>, n: nat, i: nat)
    requires |tags| == 3 && n <= 3 && i < 3
    requires tags[i].present == tags[i].value.Some?
    ensures CONTROL_KEYS[i] in ControlTagsToInput(tags, n) <==> i < n && tags[i].present
    ensures i < n && tags[i].present ==> ControlTagsToInput(tags, n)[CONTROL_KEYS[i]] == tags[i].value.value
  {
    ControlKeysDiffer();
    if n > 0 {
      InputTags(tags, n - 1, i);
      assert i < n - 1 ==> CONTROL_KEYS[i] != CONTROL_KEYS[n - 1];
      assert i > n - 1 ==> CONTROL_KEYS[n - 1] != CONTROL_KEYS[i];
    }
  }

  /** Building from the control tags of a state gives the state back. */
  lemma RebuildIsIdentity(s: State)
    requires Valid(s)
    ensures Build(s.resourceId, s.accountId, s.region, ControlTagsToInput(s.controlTags),
                  s.schemaVersion, s.policyVersion) == Ok(s)
  {
    InputTags(s.controlTags, 3, 0);
    InputTags(s.controlTags, 3, 1);
    InputTags(s.controlTags, 3, 2);
    assert s.controlTags == [s.controlTags[0], s.controlTags[1], s.controlTags[2]];
  }

  /** A built state is valid and records exactly the control tags it was given. */
  lemma BuildRecords(resourceId: Text, accountId: Text, region: Text, tags: map<Text, Text>, sv: Text, pv: Text)
    ensures var r := Build(resourceId, accountId, region, tags, sv, pv);
            r.Ok? ==>
              && Valid(r.value)
              && r.value.resourceId == resourceId && r.value.accountId == accountId && r.value.region == region
              && forall i | 0 <= i < 3 ::
                   r.value.controlTags[i].value == if CONTROL_KEYS[i] in tags then Some(tags[CONTROL_KEYS[i]]) else None
  {}

  /** A state is built exactly for supported versions, well-formed identifiers and control tags within the limit. */
  lemma BuildsIff(resourceId: Text, accountId: Text, region: Text, tags: map<Text, Text>, sv: Text, pv: Text)
    ensures Build(resourceId, accountId, region, tags, sv, pv).Ok? <==>
              && sv == SCHEMA_VERSION && pv == POLICY_VERSION
              && IsInstanceId(resourceId) && IsAccountId(accountId) && IsRegion(region)
              && forall key | key in CONTROL_KEYS && key in tags :: |tags[key]| <= 256
  {
    hide IsInstanceId, IsAccountId, IsRegion;
    var keys := CONTROL_KEYS;
    assert keys[0] in CONTROL_KEYS && keys[1] in CONTROL_KEYS && keys[2] in CONTROL_KEYS;
  }

  // ----- evidence -----

  function Nullable(t: Option<Text>): Value {
    match t case None => Null case Some(s) => Str(s)
  }

  function TagJson(tag: ControlTag): Value {
    ObjectOf(TAG_FIELDS, [Bool(tag.present), Nullable(tag.value)])
  }

  function ControlTagsJson(tags: seq<ControlTag>): Value
    requires |tags| == 3
  {
    ObjectOf(CONTROL_KEYS, Mapped(TagJson, tags))
  }

  function StateValues(s: State): (r: seq<Value>)
    requires |s.controlTags| == 3
    ensures |r| == 6
  {
    [Num(s.schemaVersion), Str(s.policyVersion), Str(s.resourceId), Str(s.accountId), Str(s.region),
     ControlTagsJson(s.controlTags)]
  }

  function ToJson(s: State): Value
    requires |s.controlTags| == 3
  {
    ObjectOf(STATE_FIELDS, StateValues(s))
  }

  /** `assertExactJsonObject`: a plain object with the expected keys and no others. */
  predicate IsExactObject(v: Value, keys: seq<Text>) {
    v.Obj? && HasExactly(v.fields, keys)
  }

  /** One control tag of the evidence: present with a text, or absent with a null. */
  function ReadTag(v: Value): Result<Option<Text>, string> {
    if !IsExactObject(v, TAG_FIELDS) then Err("Invalid resource state control tag.")
    else
      var present, value := Get(v.fields, TAG_FIELDS[0]), Get(v.fields, TAG_FIELDS[1]);
      if !present.Bool? then Err("Invalid resource state tag presence.")
      else if present.b && !value.Str? then Err("Invalid resource state tag value.")
      else if present.b then Ok(Some(value.text))
      else if value != Null then Err("Missing resource state tags must use null values.")
      else Ok(None)
  }

  /** The tags collected from the first `n` keys. */
  function ReadTags(fields: seq<Field>, keys: seq<Text>, n: nat): Result<map<Text, Text>, string>
    requires n <= |keys|
  {
    if n == 0 then Ok(map[])
    else
      var rest := ReadTags(fields, keys, n - 1);
      if rest.Err? then rest
      else
        var tag := ReadTag(Get(fields, keys[n - 1]));
        if tag.Err? then Err(tag.error)
        else if tag.value.Some? then Ok(rest.value[keys[n - 1] := tag.value.value])
        else rest
  }

  function Parse(evidence: Value, schemaVersion: Text, policyVersion: Text): Result<State, string> {
    if !IsExactObject(evidence, STATE_FIELDS) then Err("Invalid resource state evidence fields.")
    else if Get(evidence.fields, STATE_FIELDS[0]) != Num(schemaVersion)
         || Get(evidence.fields, STATE_FIELDS[1]) != Str(policyVersion) then
      Err("Resource state evidence version mismatch.")
    else
      var controlTags := Get(evidence.fields, STATE_FIELDS[5]);
      if !IsExactObject(controlTags, CONTROL_KEYS) then Err("Invalid resource state control tags fields.")
      else
        var tags := ReadTags(controlTags.fields, CONTROL_KEYS, 3);
        if tags.Err? then Err(tags.error)
        else
          var resourceId, accountId, region :=
            Get(evidence.fields, STATE_FIELDS[2]), Get(evidence.fields, STATE_FIELDS[3]),
                Get(evidence.fields, STATE_FIELDS[4]);
          if !resourceId.Str? || !accountId.Str? || !region.Str? then Err("Invalid resource state identifiers.")
          else Build(resourceId.text, accountId.text, region.text, tags.value, schemaVersion, policyVersion)
  }

  /** The pass over the control keys, filling a map. */
  method CollectTags(fields: seq<Field>, keys: seq<Text>) returns (r: Result<map<Text, Text>, string>)
    ensures r == ReadTags(fields, keys, |keys|)
  {
    hide ReadTag, Get, ReadTags;
    var tags: map<Text, Text> := map[];
    NoTagsRead(fields, keys);
    for i := 0 to |keys|
      invariant ReadTags(fields, keys, i) == Ok(tags)
    {
      OneMoreTag(fields, keys, i);
      var tag := ReadTag(Get(fields, keys[i]));
      if tag.Err? {
        ErrorStays(fields, keys, i + 1, |keys|);
        return Err(tag.error);
      }
      if tag.value.Some? {
        tags := tags[keys[i] := tag.value.value];
      }
    }
    return Ok(tags);
  }

  lemma NoTagsRead(fields: seq<Field>, keys: seq<Text>)
    ensures ReadTags(fields, keys, 0) == Ok(map[])
  {}

  lemma OneMoreTag(fields: seq<Field>, keys: seq<Text>, n: nat)
    requires n < |keys| && ReadTags(fields, keys, n).Ok?
    ensures var tags, tag := ReadTags(fields, keys, n).value, ReadTag(Get(fields, keys[n]));
            ReadTags(fields, keys, n + 1) ==
              if tag.Err? then Err(tag.error)
              else if tag.value.Some? then Ok(tags[keys[n] := tag.value.value])
              else Ok(tags)
  {
    hide ReadTag, Get;
  }

  lemma {:induction false} ErrorStays(fields: seq<Field>, keys: seq<Text>, n: nat, m: nat)
    requires n <= m <= |keys| && ReadTags(fields, keys, n).Err?
    ensures ReadTags(fields, keys, m) == ReadTags(fields, keys, n)
    decreases m
  {
    if n < m { ErrorStays(fields, keys, n, m - 1); }
  }

  /** The parser as it runs. */
  method ParseEvidence(evidence: Value, schemaVersion: Text, policyVersion: Text) returns (r: Result<State, string>)
    ensures r == Parse(evidence, schemaVersion, policyVersion)
  {
    if !IsExactObject(evidence, STATE_FIELDS) {
      return Err("Invalid resource state evidence fields.");
    }
    if Get(evidence.fields, STATE_FIELDS[0]) != Num(schemaVersion)
       || Get(evidence.fields, STATE_FIELDS[1]) != Str(policyVersion) {
      return Err("Resource state evidence version mismatch.");
    }
    var controlTags := Get(evidence.fields, STATE_FIELDS[5]);
    if !IsExactObject(controlTags, CONTROL_KEYS) {
      return Err("Invalid resource state control tags fields.");
    }
    var tags := CollectTags(controlTags.fields, CONTROL_KEYS);
    if tags.Err? {
      return Err(tags.error);
    }
    var resourceId, accountId, region :=
      Get(evidence.fields, STATE_FIELDS[2]), Get(evidence.fields, STATE_FIELDS[3]),
          Get(evidence.fields, STATE_FIELDS[4]);
    if !resourceId.Str? || !accountId.Str? || !region.Str? {
      return Err("Invalid resource state identifiers.");
    }
    return Build(resourceId.text, accountId.text, region.text, tags.value, schemaVersion, policyVersion);
  }

  // ----- the parser accepts exactly the evidence of valid states -----

  lemma ScalarMeaning(v: Value, t: Text, b: bool)
    ensures MeaningOf(v) == MeaningOf(Str(t)) <==> v == Str(t)
    ensures MeaningOf(v) == MeaningOf(Num(t)) <==> v == Num(t)
    ensures MeaningOf(v) == MeaningOf(Bool(b)) <==> v == Bool(b)
    ensures MeaningOf(v) == MeaningOf(Null) <==> v == Null
    ensures MeaningOf(v).MObj? <==> v.Obj?
  {}

  /** An object with two known keys, member by member. */
  lemma MeansPair(fields: seq<Field>, keys: seq<Text>, x: Value, y: Value)
    requires DistinctKeys(fields) && |keys| == 2 && Distinct(keys)
    ensures MeaningOf(Obj(fields)) == MeaningOf(ObjectOf(keys, [x, y]))
       <==> && HasExactly(fields, keys)
            && MeaningOf(Get(fields, keys[0])) == MeaningOf(x) && MeaningOf(Get(fields, keys[1])) == MeaningOf(y)
  {
    MeansObjectOf(fields, keys, [x, y]);
    assert [x, y][0] == x && [x, y][1] == y;
  }

  /** What `ReadTag` returns is decided by the shape and the two members. */
  lemma ReadTagMembers(v: Value, tag: ControlTag)
    requires v.Obj? && tag.present == tag.value.Some?
    ensures ReadTag(v) == Ok(tag.value)
       <==> && HasExactly(v.fields, TAG_FIELDS)
            && Get(v.fields, TAG_FIELDS[0]) == Bool(tag.present) && Get(v.fields, TAG_FIELDS[1]) == Nullable(tag.value)
  {
    hide HasExactly, Get;
  }

  lemma ReadTagIff(v: Value, tag: ControlTag)
    requires WellFormed(v) && tag.present == tag.value.Some?
    ensures ReadTag(v) == Ok(tag.value) <==> MeaningOf(v) == MeaningOf(TagJson(tag))
  {
    if v.Obj? {
      assert DistinctKeys(v.fields);
      ReadObjectIff(v.fields, tag);
    } else {
      ScalarMeaning(v, [], false);
    }
  }

  lemma ReadObjectIff(fields: seq<Field>, tag: ControlTag)
    requires DistinctKeys(fields) && tag.present == tag.value.Some?
    ensures ReadTag(Obj(fields)) == Ok(tag.value) <==> MeaningOf(Obj(fields)) == MeaningOf(TagJson(tag))
  {
    hide MeaningOf, Get, HasExactly, ReadTag, ObjectOf, Nullable, DistinctKeys;
    ControlKeysDiffer();
    ReadTagMembers(Obj(fields), tag);
    MeansPair(fields, TAG_FIELDS, Bool(tag.present), Nullable(tag.value));
    ReadTagCases(Get(fields, TAG_FIELDS[0]), Get(fields, TAG_FIELDS[1]), tag);
  }

  /** The two members decide what `ReadTag` returns. */
  lemma ReadTagCases(present: Value, value: Value, tag: ControlTag)
    requires tag.present == tag.value.Some?
    ensures MeaningOf(present) == MeaningOf(Bool(tag.present)) <==> present == Bool(tag.present)
    ensures MeaningOf(value) == MeaningOf(Nullable(tag.value)) <==> value == Nullable(tag.value)
  {
    ScalarMeaning(present, [], tag.present);
    ScalarMeaning(value, if tag.value.Some? then tag.value.value else [], false);
  }

  /** What the control-tag pass collects, key by key. */
  lemma {:induction false} ReadTagsCollect(fields: seq<Field>, keys: seq<Text>, n: nat)
    requires n <= |keys| && Distinct(keys)
    ensures ReadTags(fields, keys, n).Ok? <==> forall i | 0 <= i < n :: ReadTag(Get(fields, keys[i])).Ok?
    ensures ReadTags(fields, keys, n).Ok? ==>
              forall i | 0 <= i < |keys| ::
                && (keys[i] in ReadTags(fields, keys, n).value <==> i < n && ReadTag(Get(fields, keys[i])).value.Some?)
                && (i < n && ReadTag(Get(fields, keys[i])).value.Some? ==>
                      ReadTags(fields, keys, n).value[keys[i]] == ReadTag(Get(fields, keys[i])).value.value)
  {
    hide ReadTag, Get;
    if n > 0 {
      ReadTagsCollect(fields, keys, n - 1);
      assert forall i | 0 <= i < |keys| && i != n - 1 :: keys[i] != keys[n - 1];
    }
  }

  /** Tags are read back from an object exactly when it means them. */
  lemma ReadTagsIff(v: Value, keys: seq<Text>, tags: seq<ControlTag>)
    requires WellFormed(v) && |tags| == |keys| && Distinct(keys)
    requires forall i | 0 <= i < |tags| :: tags[i].present == tags[i].value.Some?
    ensures IsExactObject(v, keys)
        && (forall i | 0 <= i < |keys| :: ReadTag(Get(v.fields, keys[i])) == Ok(tags[i].value))
       <==> MeaningOf(v) == MeaningOf(ObjectOf(keys, Mapped(TagJson, tags)))
  {
    ScalarMeaning(v, [], false);
    if v.Obj? {
      MeansObjectOf(v.fields, keys, Mapped(TagJson, tags));
      forall i | 0 <= i < |keys|
        ensures ReadTag(Get(v.fields, keys[i])) == Ok(tags[i].value)
           <==> MeaningOf(Get(v.fields, keys[i])) == MeaningOf(Mapped(TagJson, tags)[i])
      {
        GetWellFormed(v.fields, keys[i]);
        ReadTagIff(Get(v.fields, keys[i]), tags[i]);
      }
    }
  }

  lemma GetWellFormed(fields: seq<Field>, key: Text)
    requires WellFormed(Obj(fields))
    ensures WellFormed(Get(fields, key)) && DistinctKeys(fields)
  {}

  lemma ToJsonShape(s: State)
    requires Valid(s)
    ensures |s.controlTags| == 3 && forall i | 0 <= i < 3 :: s.controlTags[i].present == s.controlTags[i].value.Some?
    ensures ToJson(s) == ObjectOf(STATE_FIELDS, StateValues(s)) && MeaningOf(ToJson(s)).MObj?
  {
    assert forall i | 0 <= i < 3 :: ValidTag(s.controlTags[i]);
  }

  /** An object with six known keys, member by member. */
  lemma MeansSix(fields: seq<Field>, keys: seq<Text>, v: seq<Value>)
    requires DistinctKeys(fields) && |keys| == |v| == 6 && Distinct(keys)
    ensures MeaningOf(Obj(fields)) == MeaningOf(ObjectOf(keys, v))
       <==> && HasExactly(fields, keys)
            && MeaningOf(Get(fields, keys[0])) == MeaningOf(v[0]) && MeaningOf(Get(fields, keys[1])) == MeaningOf(v[1])
            && MeaningOf(Get(fields, keys[2])) == MeaningOf(v[2]) && MeaningOf(Get(fields, keys[3])) == MeaningOf(v[3])
            && MeaningOf(Get(fields, keys[4])) == MeaningOf(v[4]) && MeaningOf(Get(fields, keys[5])) == MeaningOf(v[5])
  {
    hide *;
    MeansObjectOf(fields, keys, v);
  }

  /** The scalar members of the evidence are those of the state, and there are no members beyond the six. */
  predicate ScalarsOf(fields: seq<Field>, keys: seq<Text>, s: State)
    requires |keys| == 6
  {
    && HasExactly(fields, keys)
    && Get(fields, keys[0]) == Num(s.schemaVersion)
    && Get(fields, keys[1]) == Str(s.policyVersion)
    && Get(fields, keys[2]) == Str(s.resourceId)
    && Get(fields, keys[3]) == Str(s.accountId)
    && Get(fields, keys[4]) == Str(s.region)
  }

  /** Every control tag of the state is read back from the nested object. */
  predicate TagsReadBack(v: Value, keys: seq<Text>, tags: seq<ControlTag>)
    requires |keys| == |tags|
  {
    IsExactObject(v, keys) && forall i | 0 <= i < |keys| :: ReadTag(Get(v.fields, keys[i])) == Ok(tags[i].value)
  }

  /** The six members of the evidence, compared one by one. */
  lemma EvidenceMembers(fields: seq<Field>, keys: seq<Text>, s: State)
    requires DistinctKeys(fields) && |keys| == 6 && Distinct(keys) && |s.controlTags| == 3
    ensures MeaningOf(Obj(fields)) == MeaningOf(ObjectOf(keys, StateValues(s)))
       <==> ScalarsOf(fields, keys, s) && MeaningOf(Get(fields, keys[5])) == MeaningOf(ControlTagsJson(s.controlTags))
  {
    var v := StateValues(s);
    MeansSix(fields, keys, v);
    assert v[0] == Num(s.schemaVersion) && v[1] == Str(s.policyVersion) && v[2] == Str(s.resourceId);
    assert v[3] == Str(s.accountId) && v[4] == Str(s.region) && v[5] == ControlTagsJson(s.controlTags);
    hide MeaningOf, Get, ControlTagsJson, HasExactly, ObjectOf;
    ScalarMeaning(Get(fields, keys[0]), s.schemaVersion, false);
    ScalarMeaning(Get(fields, keys[1]), s.policyVersion, false);
    ScalarMeaning(Get(fields, keys[2]), s.resourceId, false);
    ScalarMeaning(Get(fields, keys[3]), s.accountId, false);
    ScalarMeaning(Get(fields, keys[4]), s.region, false);
  }

  lemma TagsMembers(v: Value, tags: seq<ControlTag>)
    requires WellFormed(v) && |tags| == |CONTROL_KEYS| == 3
    requires forall i | 0 <= i < 3 :: tags[i].present == tags[i].value.Some?
    ensures TagsReadBack(v, CONTROL_KEYS, tags) <==> MeaningOf(v) == MeaningOf(ControlTagsJson(tags))
  {
    ControlKeysDiffer();
    hide MeaningOf, ReadTag, Get, ObjectOf, IsExactObject;
    ReadTagsIff(v, CONTROL_KEYS, tags);
  }

  /** Evidence means a state exactly when its scalars are the state's and its tags read back. */
  lemma EvidenceIff(v: Value, s: State)
    requires WellFormed(v) && Valid(s) && |STATE_FIELDS| == 6 && |CONTROL_KEYS| == 3
    ensures MeaningOf(v) == MeaningOf(ToJson(s))
       <==> v.Obj? && ScalarsOf(v.fields, STATE_FIELDS, s)
            && TagsReadBack(Get(v.fields, STATE_FIELDS[5]), CONTROL_KEYS, s.controlTags)
  {
    hide *;
    ScalarMeaning(v, [], false);
    ToJsonShape(s);
    if v.Obj? {
      GetWellFormed(v.fields, STATE_FIELDS[5]);
      ControlKeysDiffer();
      EvidenceMembers(v.fields, STATE_FIELDS, s);
      TagsMembers(Get(v.fields, STATE_FIELDS[5]), s.controlTags);
    }
  }

  /**
    The parser yields a state exactly when the state is valid and the evidence is its
    JSON, in any key order.
  */
  lemma ParseIff(v: Value, s: State)
    requires WellFormed(v)
    ensures Parse(v, SCHEMA_VERSION, POLICY_VERSION) == Ok(s)
       <==> Valid(s) && MeaningOf(v) == MeaningOf(ToJson(s))
  {
    ControlKeysDiffer();
    if Parse(v, SCHEMA_VERSION, POLICY_VERSION) == Ok(s) {
      ParsedFields(v, s);
      EvidenceIff(v, s);
    }
    if Valid(s) && MeaningOf(v) == MeaningOf(ToJson(s)) {
      EvidenceIff(v, s);
      EvidenceParses(v, s);
    }
  }

  /** A parsed state, read off the evidence. */
  lemma ParsedFields(v: Value, s: State)
    requires Parse(v, SCHEMA_VERSION, POLICY_VERSION) == Ok(s) && |STATE_FIELDS| == 6 && |CONTROL_KEYS| == 3
    ensures Valid(s) && v.Obj? && ScalarsOf(v.fields, STATE_FIELDS, s)
    ensures TagsReadBack(Get(v.fields, STATE_FIELDS[5]), CONTROL_KEYS, s.controlTags)
  {
    var controlTags := Get(v.fields, STATE_FIELDS[5]);
    var tags := ReadTags(controlTags.fields, CONTROL_KEYS, 3).value;
    BuildRecords(Get(v.fields, STATE_FIELDS[2]).text, Get(v.fields, STATE_FIELDS[3]).text,
                 Get(v.fields, STATE_FIELDS[4]).text, tags, SCHEMA_VERSION, POLICY_VERSION);
    ControlKeysDiffer();
    ReadTagsCollect(controlTags.fields, CONTROL_KEYS, 3);
  }

  lemma EvidenceParses(v: Value, s: State)
    requires Valid(s) && v.Obj? && |STATE_FIELDS| == 6 && |CONTROL_KEYS| == 3
    requires ScalarsOf(v.fields, STATE_FIELDS, s)
    requires TagsReadBack(Get(v.fields, STATE_FIELDS[5]), CONTROL_KEYS, s.controlTags)
    ensures Parse(v, SCHEMA_VERSION, POLICY_VERSION) == Ok(s)
  {
    var controlTags := Get(v.fields, STATE_FIELDS[5]);
    ControlKeysDiffer();
    ReadTagsCollect(controlTags.fields, CONTROL_KEYS, 3);
    BuildFromTags(s, ReadTags(controlTags.fields, CONTROL_KEYS, 3).value);
  }

  /** A valid state is built from any tags that agree with it on the control keys. */
  lemma BuildFromTags(s: State, tags: map<Text, Text>)
    requires Valid(s)
    requires forall i | 0 <= i < 3 :: (CONTROL_KEYS[i] in tags <==> s.controlTags[i].value.Some?)
               && (s.controlTags[i].value.Some? ==> tags[CONTROL_KEYS[i]] == s.controlTags[i].value.value)
    ensures Build(s.resourceId, s.accountId, s.region, tags, s.schemaVersion, s.policyVersion) == Ok(s)
  {
    assert s.controlTags == [s.controlTags[0], s.controlTags[1], s.controlTags[2]];
    forall i | 0 <= i < 3 ensures ReadControlTag(tags, CONTROL_KEYS[i]) == Ok(s.controlTags[i]) {
      assert ValidTag(s.controlTags[i]);
    }
  }

  /** Evidence written for a built state parses back to that state. */
  lemma EvidenceRoundTrip(s: State)
    requires Valid(s)
    ensures IsJson(ToJson(s)) && Parse(ToJson(s), SCHEMA_VERSION, POLICY_VERSION) == Ok(s)
  {
    StateIsJson(s);
    ParseIff(ToJson(s), s);
  }

  lemma ObjectOfIsJson(keys: seq<Text>, values: seq<Value>)
    requires |keys| == |values| && Distinct(keys) && forall i | 0 <= i < |values| :: IsJson(values[i])
    ensures IsJson(ObjectOf(keys, values))
  {}

  lemma StateIsJson(s: State)
    requires Valid(s)
    ensures IsJson(ToJson(s))
  {
    ControlKeysDiffer();
    forall i | 0 <= i < 3 ensures IsJson(TagJson(s.controlTags[i])) {
      ObjectOfIsJson(TAG_FIELDS, [Bool(s.controlTags[i].present), Nullable(s.controlTags[i].value)]);
    }
    ObjectOfIsJson(CONTROL_KEYS, Mapped(TagJson, s.controlTags));
    assert IsJson(Num(s.schemaVersion));
    ObjectOfIsJson(STATE_FIELDS, StateValues(s));
  }

  // ----- drift -----

  /** The names among the first `n` control keys on which the states differ. */
  function ChangedTags(stored: State, current: State, n: nat): seq<Text>
    requires |stored.controlTags| == |current.controlTags| == 3 && n <= 3
  {
    if n == 0 then []
    else ChangedTags(stored, current, n - 1)
         + (if stored.controlTags[n - 1] != current.controlTags[n - 1] then [CONTROL_KEYS[n - 1]] else [])
  }

  function ChangedIds(stored: State, current: State): seq<Text> {
    (if stored.resourceId != current.resourceId then [Lit("resourceId")] else [])
    + (if stored.accountId != current.accountId then [Lit("accountId")] else [])
    + (if stored.region != current.region then [Lit("region")] else [])
  }

  function ChangedFields(stored: State, current: State): seq<Text>
    requires |stored.controlTags| == |current.controlTags| == 3
  {
    ChangedIds(stored, current) + ChangedTags(stored, current, 3)
  }

  /** The drift report as it is collected, by pushing one name after another. */
  method ChangedEc2TagSafetyFields(stored: State, current: State) returns (changed: seq<Text>)
    requires |stored.controlTags| == |current.controlTags| == 3
    ensures changed == ChangedFields(stored, current)
  {
    changed := [];
    if stored.resourceId != current.resourceId { changed := changed + [Lit("resourceId")]; }
    if stored.accountId != current.accountId { changed := changed + [Lit("accountId")]; }
    if stored.region != current.region { changed := changed + [Lit("region")]; }
    assert changed == ChangedIds(stored, current);
    for i := 0 to 3
      invariant changed == ChangedIds(stored, current) + ChangedTags(stored, current, i)
    {
      var left, right := stored.controlTags[i], current.controlTags[i];
      if left.present != right.present || left.value != right.value {
        changed := changed + [CONTROL_KEYS[i]];
      }
    }
  }

  /** Fingerprints are hashes of this text. */
  function FingerprintText(s: State): Text
    requires |s.controlTags| == 3
  {
    CanonicalText(ToJson(s))
  }

  /** Valid states agree on their fingerprint text exactly when the drift report is empty. */
  lemma NoDriftIffSameText(stored: State, current: State)
    requires Valid(stored) && Valid(current)
    ensures FingerprintText(stored) == FingerprintText(current) <==> ChangedFields(stored, current) == []
    ensures ChangedFields(stored, current) == [] <==> stored == current
  {
    StateIsJson(stored);
    StateIsJson(current);
    CanonicalTextIffMeaning(ToJson(stored), ToJson(current));
    if MeaningOf(ToJson(stored)) == MeaningOf(ToJson(current)) {
      ParseIff(ToJson(stored), stored);
      ParseIff(ToJson(stored), current);
    }
    NoDriftIffEqual(stored, current);
  }

  lemma NoDriftIffEqual(stored: State, current: State)
    requires Valid(stored) && Valid(current)
    ensures ChangedFields(stored, current) == [] <==> stored == current
  {
    NoChangedTags(stored, current, 3);
    assert ChangedIds(stored, current) == []
      <==> && stored.resourceId == current.resourceId && stored.accountId == current.accountId
           && stored.region == current.region;
    assert stored.controlTags == current.controlTags
      <==> forall i | 0 <= i < 3 :: stored.controlTags[i] == current.controlTags[i];
  }

  lemma {:induction false} NoChangedTags(stored: State, current: State, n: nat)
    requires |stored.controlTags| == |current.controlTags| == 3 && n <= 3
    ensures ChangedTags(stored, current, n) == []
        <==> forall i | 0 <= i < n :: stored.controlTags[i] == current.controlTags[i]
  {
    if n > 0 { NoChangedTags(stored, current, n - 1); }
  }
}
