/**
  The text an approval is bound to: the canonical form of everything the approver
  saw, with the tags of a tagging operation taken in any order.
*/
module ApprovalPayload {
  import opened Wrappers
  import opened Sorting
  import opened JsonText
  import opened Json
  import opened IsoTime

  const SCHEMA_VERSION_TEXT: Text := Lit("1")
  const DEFAULT_POLICY_VERSION: Text := Lit("approval-payload-binding-v1")
  const TAGGING_OPERATION: Text := Lit("EC2_APPLY_GOVERNANCE_TAGS")
  const OPERATION_KEY: Text := Lit("operation")
  const TAGS_KEY: Text := Lit("tags")

  // ----- order-insensitive tags -----

  /** The text tags are first ordered by. */
  function TagKey(tag: Value): Text {
    if tag.Obj? then
      if Get(tag.fields, Lit("key")).Str? then Get(tag.fields, Lit("key")).text
      else if Get(tag.fields, Lit("Key")).Str? then Get(tag.fields, Lit("Key")).text
      else []
    else []
  }

  /** The comparison handed to `sort`, as "left does not come after right". */
  predicate TagLe(left: Value, right: Value) {
    if TagKey(left) == TagKey(right) then LexLe(Print(left), Print(right))
    else LexLe(TagKey(left), TagKey(right))
  }

  function CanonicalItems(items: seq<Value>): seq<Value> {
    Mapped(Canonical, items)
  }

  function NormalizeTags(tags: Value): Value {
    if tags.Arr? then Arr(SortBy(TagLe, CanonicalItems(tags.items))) else tags
  }

  /** A payload whose tag order the hash ignores. */
  predicate IsTagging(v: Value) {
    v.Obj? && Get(v.fields, OPERATION_KEY) == Str(TAGGING_OPERATION) && Get(v.fields, TAGS_KEY).Arr?
  }

  function NormalizePayload(v: Value): Value {
    if !IsTagging(v) then v
    else
      var i := IndexOf(v.fields, TAGS_KEY);
      Obj(v.fields[i := Field(TAGS_KEY, NormalizeTags(v.fields[i].value))])
  }

  function Meanings(items: seq<Value>): seq<Meaning> {
    Mapped(MeaningOf, items)
  }

  function TagsOf(v: Value): seq<Value>
    requires IsTagging(v)
  {
    Get(v.fields, TAGS_KEY).items
  }

  /** Equal up to object key order and, for tagging payloads, up to the order of the tags. */
  ghost predicate SamePayload(v: Value, w: Value) {
    || MeaningOf(v) == MeaningOf(w)
    || (&& IsTagging(v) && IsTagging(w)
        && MeaningOf(v).members - {TAGS_KEY} == MeaningOf(w).members - {TAGS_KEY}
        && multiset(Meanings(TagsOf(v))) == multiset(Meanings(TagsOf(w))))
  }

  lemma TagOrder()
    ensures TotalPreorder(TagLe)
  {
    forall x, y ensures TagLe(x, y) || TagLe(y, x) {
      LexTotal(TagKey(x), TagKey(y));
      LexTotal(Print(x), Print(y));
    }
    forall x, y, z | TagLe(x, y) && TagLe(y, z) ensures TagLe(x, z) {
      TagTransitive(x, y, z);
    }
  }

  lemma TagTransitive(x: Value, y: Value, z: Value)
    requires TagLe(x, y) && TagLe(y, z)
    ensures TagLe(x, z)
  {
    var a, b, c := TagKey(x), TagKey(y), TagKey(z);
    if a == b == c {
      LexTransitive(Print(x), Print(y), Print(z));
    } else if a != b && b != c {
      LexTransitive(a, b, c);
      if a == c { LexAntisymmetric(a, b); }
    }
  }

  lemma TagsSeparate(items: seq<Value>)
    requires forall i | 0 <= i < |items| :: IsJson(items[i])
    ensures Separates(TagLe, items)
  {
    forall x, y | x in items && y in items && TagLe(x, y) && TagLe(y, x) ensures x == y {
      if TagKey(x) != TagKey(y) {
        LexAntisymmetric(TagKey(x), TagKey(y));
      } else {
        LexAntisymmetric(Print(x), Print(y));
        PrintInjective(x, y);
      }
    }
  }

  /** Sorting canonical tags is deciding whether they are the same tags. */
  lemma SortedTagsIffPermuted(a: seq<Value>, b: seq<Value>)
    requires forall i | 0 <= i < |a| :: IsJson(a[i])
    requires forall i | 0 <= i < |b| :: IsJson(b[i])
    ensures SortBy(TagLe, CanonicalItems(a)) == SortBy(TagLe, CanonicalItems(b))
       <==> multiset(Meanings(a)) == multiset(Meanings(b))
  {
    CanonicalItemsFacts(a);
    CanonicalItemsFacts(b);
    SortPermutes(TagLe, CanonicalItems(a));
    SortPermutes(TagLe, CanonicalItems(b));
    if SortBy(TagLe, CanonicalItems(a)) == SortBy(TagLe, CanonicalItems(b)) {
      MappedPermutation(MeaningOf, CanonicalItems(a), CanonicalItems(b));
    }
    if multiset(Meanings(a)) == multiset(Meanings(b)) {
      forall v, w | v in a && w in b && MeaningOf(v) == MeaningOf(w) ensures Canonical(v) == Canonical(w) {
        MeaningDeterminesCanonical(v, w);
      }
      PermutationFactors(MeaningOf, Canonical, a, b);
      TagOrder();
      TagsSeparate(CanonicalItems(a));
      SortForgetsOrder(TagLe, CanonicalItems(a), CanonicalItems(b));
    }
  }

  lemma CanonicalItemsFacts(items: seq<Value>)
    requires forall i | 0 <= i < |items| :: IsJson(items[i])
    ensures forall i | 0 <= i < |items| :: IsJson(CanonicalItems(items)[i])
    ensures Meanings(CanonicalItems(items)) == Meanings(items)
  {
    forall i | 0 <= i < |items|
      ensures IsJson(CanonicalItems(items)[i]) && MeaningOf(CanonicalItems(items)[i]) == MeaningOf(items[i])
    {
      CanonicalKeepsMeaning(items[i]);
    }
  }

  lemma ReplacedFieldElements(fields: seq<Field>, i: nat, value: Value)
    requires i < |fields| && DistinctKeys(fields)
    ensures DistinctKeys(fields[i := Field(fields[i].key, value)])
    ensures KeySet(fields[i := Field(fields[i].key, value)]) == KeySet(fields)
    ensures forall f | f in fields && f.key != fields[i].key :: f in fields[i := Field(fields[i].key, value)]
  {
    var after := fields[i := Field(fields[i].key, value)];
    assert forall j | 0 <= j < |fields| :: after[j].key == fields[j].key;
    forall k ensures k in KeySet(after) <==> k in KeySet(fields) {
      if k in KeySet(fields) {
        var f :| f in fields && f.key == k;
        var j :| 0 <= j < |fields| && fields[j] == f;
        assert after[j] in after;
      }
      if k in KeySet(after) {
        var f :| f in after && f.key == k;
        var j :| 0 <= j < |after| && after[j] == f;
        assert fields[j] in fields;
      }
    }
    forall f | f in fields && f.key != fields[i].key ensures f in after {
      var j :| 0 <= j < |fields| && fields[j] == f;
      assert after[j] == f;
    }
  }

  lemma MeansObject(fields: seq<Field>)
    ensures MeaningOf(Obj(fields)).MObj?
  {}

  /** Replacing the value of one field replaces the member it stands for. */
  lemma ReplacedField(fields: seq<Field>, i: nat, value: Value)
    requires i < |fields| && DistinctKeys(fields)
    ensures MeaningOf(Obj(fields[i := Field(fields[i].key, value)])).members
         == MeaningOf(Obj(fields)).members[fields[i].key := MeaningOf(value)]
  {
    hide MeaningOf, DistinctKeys;
    var key := fields[i].key;
    var after := fields[i := Field(key, value)];
    ReplacedFieldElements(fields, i, value);
    ObjectMeaning(fields);
    ObjectMeaning(after);
    MeansObject(fields);
    MeansObject(after);
    var m, n := MeaningOf(Obj(fields)).members, MeaningOf(Obj(after)).members;
    assert fields[i] in fields && after[i] in after;
    assert n.Keys == m[key := MeaningOf(value)].Keys;
    forall k | k in n ensures n[k] == m[key := MeaningOf(value)][k] {
      var f :| f in fields && f.key == k;
      if k != key {
        assert n[f.key] == MeaningOf(f.value) == m[f.key];
      } else {
        assert n[after[i].key] == MeaningOf(after[i].value);
      }
    }
  }

  /** The tags a normalised payload carries. */
  function SortedTags(v: Value): Value
    requires IsTagging(v)
  {
    Arr(SortBy(TagLe, CanonicalItems(TagsOf(v))))
  }

  lemma NormalizedIsJson(v: Value)
    requires IsJson(v) && IsTagging(v)
    ensures IsJson(NormalizePayload(v))
  {
    var i := IndexOf(v.fields, TAGS_KEY);
    assert IsJson(v.fields[i].value) && v.fields[i].value == Arr(TagsOf(v));
    SortedTagsAreJson(TagsOf(v));
    ReplacedFieldElements(v.fields, i, SortedTags(v));
    var n := NormalizePayload(v).fields;
    assert n == v.fields[i := Field(v.fields[i].key, SortedTags(v))];
    forall j | 0 <= j < |n| ensures IsJson(n[j].value) {
      assert j != i ==> n[j] == v.fields[j];
    }
  }

  /** What normalising does to a tagging payload: the tags member is replaced, nothing else. */
  lemma NormalizedMeaning(v: Value)
    requires IsJson(v) && IsTagging(v)
    ensures NormalizePayload(v).Obj? && TAGS_KEY in MeaningOf(v).members
    ensures MeaningOf(NormalizePayload(v)).members == MeaningOf(v).members[TAGS_KEY := MeaningOf(SortedTags(v))]
  {
    ReplacedField(v.fields, IndexOf(v.fields, TAGS_KEY), SortedTags(v));
    TagsMeaning(v);
  }

  lemma SortedTagsAreJson(items: seq<Value>)
    requires forall i | 0 <= i < |items| :: IsJson(items[i])
    ensures IsJson(Arr(SortBy(TagLe, CanonicalItems(items))))
  {
    var tags := SortBy(TagLe, CanonicalItems(items));
    CanonicalItemsFacts(items);
    SortPermutes(TagLe, CanonicalItems(items));
    forall i | 0 <= i < |tags| ensures IsJson(tags[i]) {
      assert tags[i] in multiset(CanonicalItems(items));
    }
  }

  /** Normalised payloads mean the same exactly when the payloads are the same up to order. */
  lemma NormalizedIffSamePayload(v: Value, w: Value)
    requires IsJson(v) && IsJson(w)
    ensures IsJson(NormalizePayload(v)) && IsJson(NormalizePayload(w))
    ensures MeaningOf(NormalizePayload(v)) == MeaningOf(NormalizePayload(w)) <==> SamePayload(v, w)
  {
    if IsTagging(v) { NormalizedIsJson(v); }
    if IsTagging(w) { NormalizedIsJson(w); }
    if IsTagging(v) && IsTagging(w) {
      TaggingPayloads(v, w);
    } else if IsTagging(v) {
      OnlyOneTagging(v, w);
    } else if IsTagging(w) {
      OnlyOneTagging(w, v);
    }
  }

  lemma TaggingPayloads(v: Value, w: Value)
    requires IsJson(v) && IsJson(w) && IsTagging(v) && IsTagging(w)
    ensures MeaningOf(NormalizePayload(v)) == MeaningOf(NormalizePayload(w)) <==> SamePayload(v, w)
  {
    NormalizedMeaning(v);
    NormalizedMeaning(w);
    assert IsJson(v.fields[IndexOf(v.fields, TAGS_KEY)].value);
    assert IsJson(w.fields[IndexOf(w.fields, TAGS_KEY)].value);
    SortedTagsIffPermuted(TagsOf(v), TagsOf(w));
    SortedTagMeanings(TagsOf(v), TagsOf(w));
    TagsMeaning(v);
    TagsMeaning(w);
    MapsDifferingAtOneKey(
      MeaningOf(v).members, MeaningOf(w).members, TAGS_KEY,
      MeaningOf(SortedTags(v)), MeaningOf(SortedTags(w)));
  }

  lemma MapsDifferingAtOneKey<K, V>(m: map<K, V>, n: map<K, V>, k: K, x: V, y: V)
    ensures m[k := x] == n[k := y] <==> m - {k} == n - {k} && x == y
  {
    assert m[k := x] - {k} == m - {k} && n[k := y] - {k} == n - {k};
    assert m[k := x] == (m - {k})[k := x] && n[k := y] == (n - {k})[k := y];
    assert m[k := x][k] == x && n[k := y][k] == y;
  }

  /** Canonical sorted tags mean the same only when they are the same. */
  lemma SortedTagMeanings(a: seq<Value>, b: seq<Value>)
    requires forall i | 0 <= i < |a| :: IsJson(a[i])
    requires forall i | 0 <= i < |b| :: IsJson(b[i])
    ensures var p, q := SortBy(TagLe, CanonicalItems(a)), SortBy(TagLe, CanonicalItems(b));
            MeaningOf(Arr(p)) == MeaningOf(Arr(q)) <==> p == q
  {
    var p, q := SortBy(TagLe, CanonicalItems(a)), SortBy(TagLe, CanonicalItems(b));
    SortedTagsAreJson(a);
    SortedTagsAreJson(b);
    if MeaningOf(Arr(p)) == MeaningOf(Arr(q)) {
      SortedTagsAreCanonical(a);
      SortedTagsAreCanonical(b);
      MeaningDeterminesCanonical(Arr(p), Arr(q));
    }
  }

  lemma SortedTagsAreCanonical(items: seq<Value>)
    requires forall i | 0 <= i < |items| :: IsJson(items[i])
    ensures var p := SortBy(TagLe, CanonicalItems(items)); Canonical(Arr(p)) == Arr(p)
  {
    var p := SortBy(TagLe, CanonicalItems(items));
    SortPermutes(TagLe, CanonicalItems(items));
    forall i | 0 <= i < |p| ensures Canonical(p[i]) == p[i] {
      assert p[i] in multiset(CanonicalItems(items));
      var j :| 0 <= j < |items| && CanonicalItems(items)[j] == p[i];
      CanonicalIdempotent(items[j]);
    }
    assert Canonical(Arr(p)).items == p;
  }

  lemma ArrayMeaning(items: seq<Value>)
    ensures MeaningOf(Arr(items)) == MArr(Meanings(items))
  {
    assert MeaningOf(Arr(items)).items == Meanings(items);
  }

  lemma TagsMeaning(v: Value)
    requires IsJson(v) && IsTagging(v)
    ensures TAGS_KEY in MeaningOf(v).members
    ensures MeaningOf(v).members[TAGS_KEY] == MArr(Meanings(TagsOf(v)))
  {
    MemberMeaning(v.fields, TAGS_KEY);
    assert Get(v.fields, TAGS_KEY) == Arr(TagsOf(v));
    ArrayMeaning(TagsOf(v));
  }

  /** A tagging payload and one that is not are told apart, normalised or not. */
  lemma OnlyOneTagging(v: Value, w: Value)
    requires IsJson(v) && IsJson(w) && IsTagging(v) && !IsTagging(w)
    ensures MeaningOf(NormalizePayload(v)) != MeaningOf(w) && MeaningOf(v) != MeaningOf(w)
  {
    NormalizedMeaning(v);
    OperationMeaning(v);
    TagsMeaning(v);
    if w.Obj? { NotTaggingMeaning(w); }
  }

  lemma OperationMeaning(v: Value)
    requires IsJson(v) && IsTagging(v)
    ensures OPERATION_KEY != TAGS_KEY && OPERATION_KEY in MeaningOf(v).members
    ensures MeaningOf(v).members[OPERATION_KEY] == MStr(TAGGING_OPERATION)
  {
    LitDiffers("operation", "tags");
    MemberMeaning(v.fields, OPERATION_KEY);
    assert MeaningOf(Get(v.fields, OPERATION_KEY)) == MStr(TAGGING_OPERATION);
  }

  lemma NotTaggingMeaning(w: Value)
    requires IsJson(w) && !IsTagging(w) && w.Obj?
    ensures var m := MeaningOf(w).members;
            !(&& OPERATION_KEY in m && m[OPERATION_KEY] == MStr(TAGGING_OPERATION)
              && TAGS_KEY in m && m[TAGS_KEY].MArr?)
  {
    assert MeaningOf(w).members.Keys == KeySet(w.fields);
    if OPERATION_KEY in KeySet(w.fields) && TAGS_KEY in KeySet(w.fields) {
      MemberMeaning(w.fields, OPERATION_KEY);
      MemberMeaning(w.fields, TAGS_KEY);
      KindFromMeaning(Get(w.fields, OPERATION_KEY), TAGGING_OPERATION);
      KindFromMeaning(Get(w.fields, TAGS_KEY), []);
    }
  }

  lemma KindFromMeaning(v: Value, t: Text)
    ensures MeaningOf(v) == MStr(t) <==> v == Str(t)
    ensures MeaningOf(v).MArr? <==> v.Arr?
  {}

  // ----- the whole payload -----

  /** The columns of a plan that an approval is bound to; the callers print its expiry before they hash it. */
  datatype Input = Input(
    organizationId: Text,
    remediationPlanId: Text,
    createdById: Text,
    allowlistedOperation: Option<Text>,
    confirmationTokenRequired: Option<Text>,
    requestedAction: Value,
    normalizedPayload: Value,
    beforeState: Value,
    expectedAfterState: Value,
    rollbackPayload: Value,
    executionMode: Text,
    idempotencyKey: Option<Text>,
    approvalExpiresAt: Option<Instant>,
    policyVersion: Option<Text>)

  function Nullable(t: Option<Text>): Value {
    match t case None => Null case Some(s) => Str(s)
  }

  /** `approvalExpiresAt?.toISOString() ?? null` */
  function ExpiryText(at: Option<Instant>): Option<Text> {
    match at case None => None case Some(t) => Some(IsoText(t))
  }

  /** Different expiries have different texts. */
  lemma ExpiryTextDetermines(a: Option<Instant>, b: Option<Instant>)
    requires ExpiryText(a) == ExpiryText(b)
    ensures a == b
  {
    hide IsoText;
    if a.Some? { IsoTextDetermines(a.value, b.value); }
  }

  function PolicyVersion(input: Input): Text {
    match input.policyVersion case None => DEFAULT_POLICY_VERSION case Some(p) => p
  }

  const PAYLOAD_KEYS: seq<string> :=
    ["schemaVersion", "organizationId", "remediationPlanId", "createdById", "allowlistedOperation",
     "confirmationTokenRequired", "requestedAction", "normalizedPayload", "beforeState", "expectedAfterState",
     "rollbackPayload", "executionMode", "idempotencyKey", "approvalExpiresAt", "policyVersion"]

  /** The value stored under `PAYLOAD_KEYS[i]`. */
  function PayloadValue(input: Input, i: nat): Value
    requires i < 15
  {
    match i
    case 0 => Num(SCHEMA_VERSION_TEXT)
    case 1 => Str(input.organizationId)
    case 2 => Str(input.remediationPlanId)
    case 3 => Str(input.createdById)
    case 4 => Nullable(input.allowlistedOperation)
    case 5 => Nullable(input.confirmationTokenRequired)
    case 6 => input.requestedAction
    case 7 => NormalizePayload(input.normalizedPayload)
    case 8 => input.beforeState
    case 9 => input.expectedAfterState
    case 10 => input.rollbackPayload
    case 11 => Str(input.executionMode)
    case 12 => Nullable(input.idempotencyKey)
    case 13 => Nullable(ExpiryText(input.approvalExpiresAt))
    case _ => Str(PolicyVersion(input))
  }

  function PayloadFields(input: Input): seq<Field> {
    seq(15, i requires 0 <= i < 15 => Field(Lit(PAYLOAD_KEYS[i]), PayloadValue(input, i)))
  }

  function Build(input: Input): Value {
    Obj(PayloadFields(input))
  }

  ghost predicate JsonInput(input: Input) {
    && IsJson(input.requestedAction) && IsJson(input.normalizedPayload) && IsJson(input.beforeState)
    && IsJson(input.expectedAfterState) && IsJson(input.rollbackPayload)
  }

  ghost predicate SameScalars(a: Input, b: Input) {
    && a.organizationId == b.organizationId
    && a.remediationPlanId == b.remediationPlanId
    && a.createdById == b.createdById
    && a.allowlistedOperation == b.allowlistedOperation
    && a.confirmationTokenRequired == b.confirmationTokenRequired
    && a.executionMode == b.executionMode
    && a.idempotencyKey == b.idempotencyKey
    && a.approvalExpiresAt == b.approvalExpiresAt
    && PolicyVersion(a) == PolicyVersion(b)
  }

  ghost predicate SameJson(a: Input, b: Input) {
    && MeaningOf(a.requestedAction) == MeaningOf(b.requestedAction)
    && MeaningOf(a.beforeState) == MeaningOf(b.beforeState)
    && MeaningOf(a.expectedAfterState) == MeaningOf(b.expectedAfterState)
    && MeaningOf(a.rollbackPayload) == MeaningOf(b.rollbackPayload)
  }

  /** The same approval: equal fields, with JSON fields compared up to order. */
  ghost predicate SameApproval(a: Input, b: Input) {
    SameScalars(a, b) && SameJson(a, b) && SamePayload(a.normalizedPayload, b.normalizedPayload)
  }

  lemma PayloadKeysDiffer(i: nat, j: nat)
    requires i < j < |PAYLOAD_KEYS|
    ensures var a, b := PAYLOAD_KEYS[i], PAYLOAD_KEYS[j];
            && |a| >= 2 && |b| >= 2
            && a[0] < 128 as char && a[1] < 128 as char && b[0] < 128 as char && b[1] < 128 as char
            && (|a| != |b| || a[0] != b[0] || a[1] != b[1])
  {}

  lemma PayloadFieldsDistinct(input: Input)
    ensures DistinctKeys(PayloadFields(input))
  {
    var f := PayloadFields(input);
    forall i, j | 0 <= i < j < |f| ensures f[i].key != f[j].key {
      PayloadKeysDiffer(i, j);
      LitDiffers(PAYLOAD_KEYS[i], PAYLOAD_KEYS[j]);
    }
  }

  /** Objects with the same distinct keys in the same places are compared value by value. */
  lemma AlignedObjects(f: seq<Field>, g: seq<Field>)
    requires |f| == |g| && DistinctKeys(f)
    requires forall i | 0 <= i < |f| :: f[i].key == g[i].key
    ensures MeaningOf(Obj(f)) == MeaningOf(Obj(g))
       <==> forall i | 0 <= i < |f| :: MeaningOf(f[i].value) == MeaningOf(g[i].value)
  {
    hide MeaningOf;
    ObjectMeaning(f);
    ObjectMeaning(g);
    if MeaningOf(Obj(f)) == MeaningOf(Obj(g)) {
      forall i | 0 <= i < |f| ensures MeaningOf(f[i].value) == MeaningOf(g[i].value) {
        assert f[i] in f && g[i] in g;
      }
    }
    if forall i | 0 <= i < |f| :: MeaningOf(f[i].value) == MeaningOf(g[i].value) {
      forall x | x in f ensures exists y :: y in g && y.key == x.key && MeaningOf(y.value) == MeaningOf(x.value) {
        var i :| 0 <= i < |f| && f[i] == x;
        assert g[i] in g;
      }
      forall k | k in KeySet(g) ensures k in KeySet(f) {
        var y :| y in g && y.key == k;
        var i :| 0 <= i < |g| && g[i] == y;
        assert f[i] in f;
      }
      ObjectsMeanTheSame(f, g);
    }
  }

  /** Approval payloads share a canonical text exactly when they are the same approval. */
  lemma ApprovalTextIffSame(a: Input, b: Input)
    requires JsonInput(a) && JsonInput(b)
    ensures CanonicalText(Build(a)) == CanonicalText(Build(b)) <==> SameApproval(a, b)
  {
    BuildTextIffMeaning(a, b);
    AlignedPayloads(a, b);
    ValuewiseSame(a, b);
    PayloadValueSame(a, b);
  }

  lemma BuildTextIffMeaning(a: Input, b: Input)
    requires JsonInput(a) && JsonInput(b)
    ensures CanonicalText(Build(a)) == CanonicalText(Build(b)) <==> MeaningOf(Build(a)) == MeaningOf(Build(b))
  {
    PayloadIsJson(a);
    PayloadIsJson(b);
    CanonicalTextIffMeaning(Build(a), Build(b));
  }

  lemma PayloadValueSame(a: Input, b: Input)
    requires JsonInput(a) && JsonInput(b)
    ensures SameValue(a, b, 7) <==> SamePayload(a.normalizedPayload, b.normalizedPayload)
  {
    NormalizedIffSamePayload(a.normalizedPayload, b.normalizedPayload);
  }

  lemma AlignedPayloads(a: Input, b: Input)
    ensures MeaningOf(Build(a)) == MeaningOf(Build(b)) <==> forall i: nat | i < 15 :: SameValue(a, b, i)
  {
    var f, g := PayloadFields(a), PayloadFields(b);
    PayloadFieldsDistinct(a);
    AlignedObjects(f, g);
    if forall i | 0 <= i < 15 :: MeaningOf(f[i].value) == MeaningOf(g[i].value) {
      forall i: nat | i < 15 ensures SameValue(a, b, i) {
        assert MeaningOf(f[i].value) == MeaningOf(g[i].value);
      }
    }
    if forall i: nat | i < 15 :: SameValue(a, b, i) {
      forall i | 0 <= i < 15 ensures MeaningOf(f[i].value) == MeaningOf(g[i].value) {
        assert SameValue(a, b, i);
      }
    }
  }

  lemma PayloadIsJson(a: Input)
    requires JsonInput(a)
    ensures IsJson(Build(a))
  {
    NormalizedIffSamePayload(a.normalizedPayload, a.normalizedPayload);
    PayloadFieldsDistinct(a);
    var f := PayloadFields(a);
    forall i | 0 <= i < |f| ensures IsJson(f[i].value) {
      PayloadValueIsJson(a, i);
    }
  }

  lemma PayloadValueIsJson(a: Input, i: nat)
    requires JsonInput(a) && IsJson(NormalizePayload(a.normalizedPayload)) && i < 15
    ensures IsJson(PayloadValue(a, i))
  {}

  ghost predicate SameValue(a: Input, b: Input, i: nat)
    requires i < 15
  {
    MeaningOf(PayloadValue(a, i)) == MeaningOf(PayloadValue(b, i))
  }

  lemma TextAt(a: Input, b: Input, i: nat, s: Text, t: Text)
    requires i < 15 && PayloadValue(a, i) == Str(s) && PayloadValue(b, i) == Str(t)
    ensures SameValue(a, b, i) <==> s == t
  {}

  lemma NullableAt(a: Input, b: Input, i: nat, s: Option<Text>, t: Option<Text>)
    requires i < 15 && PayloadValue(a, i) == Nullable(s) && PayloadValue(b, i) == Nullable(t)
    ensures SameValue(a, b, i) <==> s == t
  {}

  lemma AllFifteen(p: nat -> bool)
    ensures (forall i: nat | i < 15 :: p(i))
       <==> p(0) && p(1) && p(2) && p(3) && p(4) && p(5) && p(6) && p(7)
            && p(8) && p(9) && p(10) && p(11) && p(12) && p(13) && p(14)
  {}

  /** Comparing the fifteen values by meaning is comparing the fields they come from. */
  lemma ValuewiseSame(a: Input, b: Input)
    ensures (forall i: nat | i < 15 :: SameValue(a, b, i))
       <==> SameScalars(a, b) && SameJson(a, b) && SameValue(a, b, 7)
  {
    var p := (i: nat) => i < 15 && SameValue(a, b, i);
    assert forall i: nat | i < 15 :: p(i) == SameValue(a, b, i);
    AllFifteen(p);
    ScalarsSame(a, b);
    JsonSame(a, b);
  }

  lemma MeaningAt(a: Input, b: Input, i: nat, v: Value, w: Value)
    requires i < 15 && PayloadValue(a, i) == v && PayloadValue(b, i) == w
    ensures SameValue(a, b, i) <==> MeaningOf(v) == MeaningOf(w)
  {}

  lemma JsonSame(a: Input, b: Input)
    ensures SameValue(a, b, 6) && SameValue(a, b, 8) && SameValue(a, b, 9) && SameValue(a, b, 10) <==> SameJson(a, b)
  {
    MeaningAt(a, b, 6, a.requestedAction, b.requestedAction);
    MeaningAt(a, b, 8, a.beforeState, b.beforeState);
    MeaningAt(a, b, 9, a.expectedAfterState, b.expectedAfterState);
    MeaningAt(a, b, 10, a.rollbackPayload, b.rollbackPayload);
  }

  lemma ExpirySame(a: Input, b: Input)
    ensures SameValue(a, b, 13) <==> a.approvalExpiresAt == b.approvalExpiresAt
  {
    hide ExpiryText;
    NullableAt(a, b, 13, ExpiryText(a.approvalExpiresAt), ExpiryText(b.approvalExpiresAt));
    if SameValue(a, b, 13) { ExpiryTextDetermines(a.approvalExpiresAt, b.approvalExpiresAt); }
  }

  /** The schema version is a constant. */
  lemma VersionSame(a: Input, b: Input)
    ensures SameValue(a, b, 0)
  {}

  lemma ScalarsSame(a: Input, b: Input)
    ensures SameValue(a, b, 0)
    ensures SameValue(a, b, 1) <==> a.organizationId == b.organizationId
    ensures SameValue(a, b, 2) <==> a.remediationPlanId == b.remediationPlanId
    ensures SameValue(a, b, 3) <==> a.createdById == b.createdById
    ensures SameValue(a, b, 4) <==> a.allowlistedOperation == b.allowlistedOperation
    ensures SameValue(a, b, 5) <==> a.confirmationTokenRequired == b.confirmationTokenRequired
    ensures SameValue(a, b, 11) <==> a.executionMode == b.executionMode
    ensures SameValue(a, b, 12) <==> a.idempotencyKey == b.idempotencyKey
    ensures SameValue(a, b, 13) <==> a.approvalExpiresAt == b.approvalExpiresAt
    ensures SameValue(a, b, 14) <==> PolicyVersion(a) == PolicyVersion(b)
  {
    hide SameValue, ExpiryText;
    VersionSame(a, b);
    TextAt(a, b, 1, a.organizationId, b.organizationId);
    TextAt(a, b, 2, a.remediationPlanId, b.remediationPlanId);
    TextAt(a, b, 3, a.createdById, b.createdById);
    NullableAt(a, b, 4, a.allowlistedOperation, b.allowlistedOperation);
    NullableAt(a, b, 5, a.confirmationTokenRequired, b.confirmationTokenRequired);
    TextAt(a, b, 11, a.executionMode, b.executionMode);
    NullableAt(a, b, 12, a.idempotencyKey, b.idempotencyKey);
    ExpirySame(a, b);
    TextAt(a, b, 14, PolicyVersion(a), PolicyVersion(b));
  }

  // ----- hashes -----

  /** SHA-256 of the UTF-8 bytes of a text, in lower-case hexadecimal. */
  type Hash = Text -> Text

  predicate IsHexUnit(u: CodeUnit) {
    0x30 <= u <= 0x39 || 0x61 <= u <= 0x66
  }

  predicate IsDigest(t: Text) {
    |t| == 64 && forall i | 0 <= i < |t| :: IsHexUnit(t[i])
  }

  /** Missing and malformed digests never compare equal. */
  predicate HashesEqual(left: Option<Text>, right: Option<Text>) {
    left.Some? && right.Some? && IsDigest(left.value) && IsDigest(right.value) && left.value == right.value
  }

  /** `canonicalValue` throws on unsupported parts, and then there is no hash. */
  function ComputeHash(h: Hash, v: Value): Result<Text, string> {
    if Supported(v) then Ok(h(CanonicalText(v))) else Err("unsupported value in approval payload")
  }

  ghost predicate Collision(h: Hash, s: Text, t: Text) {
    s != t && h(s) == h(t)
  }

  /** Matching payload hashes are matching approvals, short of a collision. */
  lemma MatchingHashesBindApproval(h: Hash, approved: Input, current: Input)
    requires JsonInput(approved) && JsonInput(current)
    requires forall t :: IsDigest(h(t))
    ensures ComputeHash(h, Build(approved)).Ok? && ComputeHash(h, Build(current)).Ok?
    ensures HashesEqual(Some(ComputeHash(h, Build(approved)).value), Some(ComputeHash(h, Build(current)).value))
       <==> SameApproval(approved, current)
            || Collision(h, CanonicalText(Build(approved)), CanonicalText(Build(current)))
  {
    PayloadIsJson(approved);
    PayloadIsJson(current);
    ApprovalTextIffSame(approved, current);
  }
}
