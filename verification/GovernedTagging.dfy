/**
  The tags of a governed EC2 tagging change: how they are read from the approved
  payload, which of them the worker and the reconciler accept, what sending them
  does to an instance, and the rollback recorded for them.
*/
module GovernedTagging {
  import opened Wrappers
  import opened Sorting
  import opened JsonText
  import opened Json
  import AP = ApprovalPayload
  import SS = SafetyState

  datatype Tag = Tag(key: Text, value: Text)

  const KEY: Text := Lit("key")
  const VALUE: Text := Lit("value")

  // ----- reading the requested tags -----

  /** JavaScript's `String(v)`. */
  function JsString(v: Value): Text
    decreases v, 1
  {
    match v
    case Null => NULL_TEXT
    case Bool(b) => if b then TRUE_TEXT else FALSE_TEXT
    case Num(lit) => lit
    case Str(text) => text
    case Arr(items) => JoinItems(items)
    case Obj(_) => Lit("[object Object]")
    case Unsupported => Lit("undefined")
  }

  function JoinItems(items: seq<Value>): Text
    decreases items, 0
  {
    if items == [] then []
    else
      var head := if items[0].Null? || items[0].Unsupported? then [] else JsString(items[0]);
      if |items| == 1 then head else head + [COMMA] + JoinItems(items[1..])
  }

  /** The `{ Key, Value }` made of one entry; reading a property of null throws. */
  function RequestedTag(entry: Value): Option<Tag> {
    match entry
    case Null => None
    case Unsupported => None
    case Obj(fields) => Some(Tag(JsString(Get(fields, KEY)), JsString(Get(fields, VALUE))))
    case _ => Some(Tag(Lit("undefined"), Lit("undefined")))
  }

  function Unwrap(t: Option<Tag>): Tag {
    match t case Some(tag) => tag case None => Tag([], [])
  }

  /** `(payload.tags ?? []).map(...)`, or nothing when it throws. */
  function RequestedTags(payload: Value): Option<seq<Tag>> {
    if !payload.Obj? then None
    else
      var tags := Get(payload.fields, AP.TAGS_KEY);
      if tags.Null? || tags.Unsupported? then Some([])
      else if !tags.Arr? then None
      else
        var entries := Mapped(RequestedTag, tags.items);
        if None in entries then None else Some(Mapped(Unwrap, entries))
  }

  lemma {:induction false} JsStringOfMeaning(v: Value, w: Value)
    requires WellFormed(v) && WellFormed(w) && MeaningOf(v) == MeaningOf(w)
    ensures JsString(v) == JsString(w)
    decreases v, 1
  {
    match v {
      case Arr(items) =>
        assert |items| == |w.items| by { AP.ArrayMeaning(items); AP.ArrayMeaning(w.items); }
        forall i | 0 <= i < |items| ensures MeaningOf(items[i]) == MeaningOf(w.items[i]) {
          AP.ArrayMeaning(items);
          AP.ArrayMeaning(w.items);
          assert AP.Meanings(items)[i] == AP.Meanings(w.items)[i];
        }
        JoinOfMeanings(items, w.items);
      case _ =>
    }
  }

  lemma {:induction false} JoinOfMeanings(a: seq<Value>, b: seq<Value>)
    requires |a| == |b|
    requires forall i | 0 <= i < |a| :: WellFormed(a[i]) && WellFormed(b[i]) && MeaningOf(a[i]) == MeaningOf(b[i])
    ensures JoinItems(a) == JoinItems(b)
    decreases a, 0
  {
    if a != [] {
      JsStringOfMeaning(a[0], b[0]);
      JoinOfMeanings(a[1..], b[1..]);
    }
  }

  lemma RequestedTagOfMeaning(v: Value, w: Value)
    requires WellFormed(v) && WellFormed(w) && MeaningOf(v) == MeaningOf(w)
    ensures RequestedTag(v) == RequestedTag(w)
  {
    if v.Obj? {
      PropertyOfMeaning(v.fields, w.fields, KEY);
      PropertyOfMeaning(v.fields, w.fields, VALUE);
      JsStringOfMeaning(Get(v.fields, KEY), Get(w.fields, KEY));
      JsStringOfMeaning(Get(v.fields, VALUE), Get(w.fields, VALUE));
    }
  }

  lemma PropertyOfMeaning(a: seq<Field>, b: seq<Field>, key: Text)
    requires WellFormed(Obj(a)) && WellFormed(Obj(b)) && MeaningOf(Obj(a)) == MeaningOf(Obj(b))
    ensures WellFormed(Get(a, key)) && WellFormed(Get(b, key)) && MeaningOf(Get(a, key)) == MeaningOf(Get(b, key))
  {
    assert KeySet(a) == MeaningOf(Obj(a)).members.Keys == KeySet(b);
    if key in KeySet(a) {
      MemberMeaning(a, key);
      MemberMeaning(b, key);
    }
  }

  lemma SamePayloadSameTags(v: Value, w: Value)
    requires IsJson(v) && IsJson(w) && AP.SamePayload(v, w) && AP.IsTagging(v)
    ensures AP.IsTagging(w) && multiset(AP.Meanings(AP.TagsOf(v))) == multiset(AP.Meanings(AP.TagsOf(w)))
  {
    hide MeaningOf, AP.TagsOf, AP.Meanings, IsJson, AP.IsTagging;
    if !AP.IsTagging(w) { AP.OnlyOneTagging(v, w); }
    AP.TagsMeaning(v);
    AP.TagsMeaning(w);
  }

  /** Payloads that an approval does not tell apart request the same tags, up to order. */
  lemma SamePayloadRequestsSameTags(v: Value, w: Value)
    requires IsJson(v) && IsJson(w) && AP.SamePayload(v, w) && AP.IsTagging(v)
    ensures AP.IsTagging(w)
    ensures RequestedTags(v).Some? == RequestedTags(w).Some?
    ensures RequestedTags(v).Some? ==> multiset(RequestedTags(v).value) == multiset(RequestedTags(w).value)
  {
    hide MeaningOf, RequestedTag, AP.SamePayload, IsJson, WellFormed;
    SamePayloadSameTags(v, w);
    var a, b := AP.TagsOf(v), AP.TagsOf(w);
    TagsWellFormed(v);
    TagsWellFormed(w);
    forall x, y | x in a && y in b && MeaningOf(x) == MeaningOf(y) ensures RequestedTag(x) == RequestedTag(y) {
      RequestedTagOfMeaning(x, y);
    }
    PermutationFactors(MeaningOf, RequestedTag, a, b);
    var p, q := Mapped(RequestedTag, a), Mapped(RequestedTag, b);
    assert None in p <==> None in multiset(p);
    assert None in q <==> None in multiset(q);
    MappedPermutation(Unwrap, p, q);
  }

  lemma TagsWellFormed(v: Value)
    requires IsJson(v) && AP.IsTagging(v)
    ensures forall x | x in AP.TagsOf(v) :: WellFormed(x)
  {
    var i := IndexOf(v.fields, AP.TAGS_KEY);
    assert WellFormed(v.fields[i].value);
  }

  // ----- the worker's checks -----

  predicate IsSpace(u: CodeUnit) {
    || 0x09 <= u <= 0x0D || u == 0x20 || u == 0xA0 || u == 0x1680 || 0x2000 <= u <= 0x200A
    || u == 0x2028 || u == 0x2029 || u == 0x202F || u == 0x205F || u == 0x3000 || u == 0xFEFF
  }

  /** `key.trim() === ""` */
  predicate IsBlank(t: Text) {
    forall i | 0 <= i < |t| :: IsSpace(t[i])
  }

  function LowerAscii(u: CodeUnit): CodeUnit {
    if 0x41 <= u <= 0x5A then u + 0x20 else u
  }

  /** `key.toLowerCase().startsWith("aws:")`; only ASCII letters lower to these four units. */
  predicate IsReserved(t: Text) {
    |t| >= 4 && LowerAscii(t[0]) == 0x61 && LowerAscii(t[1]) == 0x77 && LowerAscii(t[2]) == 0x73 && t[3] == 0x3A
  }

  const MALFORMED := "MALFORMED_TAG_PAYLOAD"
  const NOT_ALLOWLISTED := "TAG_KEY_NOT_ALLOWLISTED"

  function KeysOf(tags: seq<Tag>): set<Text> {
    set t | t in tags :: t.key
  }

  /** The failure the worker reports for a tag, given the keys it has already seen. */
  function TagProblem(tag: Tag, seen: set<Text>, allowed: seq<Text>): Option<string> {
    if IsBlank(tag.key) then Some(MALFORMED)
    else if tag.key in seen then Some(MALFORMED)
    else if |tag.key| > 128 || |tag.value| > 256 then Some(MALFORMED)
    else if IsReserved(tag.key) then Some(NOT_ALLOWLISTED)
    else if tag.key in SS.CONTROL_KEYS then Some(NOT_ALLOWLISTED)
    else if allowed != [] && tag.key !in allowed then Some(NOT_ALLOWLISTED)
    else None
  }

  /** A request the worker is willing to send. */
  ghost predicate Accepted(tags: seq<Tag>, allowed: seq<Text>) {
    && tags != []
    && (forall i, j | 0 <= i < j < |tags| :: tags[i].key != tags[j].key)
    && (forall t | t in tags ::
          && !IsBlank(t.key) && |t.key| <= 128 && |t.value| <= 256
          && !IsReserved(t.key) && t.key !in SS.CONTROL_KEYS && (allowed == [] || t.key in allowed))
  }

  /** The worker's loop over the requested tags; on refusal it reports the first offender's failure. */
  method CheckRequestedTags(tags: seq<Tag>, allowed: seq<Text>) returns (failure: Option<string>)
    ensures failure.None? <==> Accepted(tags, allowed)
    ensures tags == [] ==> failure == Some(MALFORMED)
    ensures tags != [] && failure.Some? ==>
              exists i :: && 0 <= i < |tags| && failure == TagProblem(tags[i], KeysOf(tags[..i]), allowed)
                          && Accepted(tags[..i + 1], allowed) == false && (i > 0 ==> Accepted(tags[..i], allowed))
  {
    if tags == [] {
      return Some(MALFORMED);
    }
    var seenKeys: set<Text> := {};
    for n := 0 to |tags|
      invariant seenKeys == KeysOf(tags[..n])
      invariant n > 0 ==> Accepted(tags[..n], allowed)
    {
      var tag := tags[n];
      failure := TagProblem(tag, seenKeys, allowed);
      assert tags[..n + 1] == tags[..n] + [tag];
      if failure.Some? {
        RefusedPrefix(tags, n, allowed);
        return;
      }
      seenKeys := seenKeys + {tag.key};
      forall i | 0 <= i < n ensures tags[i].key != tag.key {
        assert tags[i] in tags[..n];
      }
    }
    assert tags[..|tags|] == tags;
    return None;
  }

  lemma RefusedPrefix(tags: seq<Tag>, n: nat, allowed: seq<Text>)
    requires n < |tags| && TagProblem(tags[n], KeysOf(tags[..n]), allowed).Some?
    ensures !Accepted(tags[..n + 1], allowed) && !Accepted(tags, allowed)
  {
    assert tags[n] in tags && tags[n] in tags[..n + 1];
    if tags[n].key in KeysOf(tags[..n]) {
      var t :| t in tags[..n] && t.key == tags[n].key;
      var i :| 0 <= i < n && tags[i] == t;
      assert tags[..n + 1][i] == t && tags[..n + 1][n] == tags[n];
    }
  }

  // ----- sending and rolling back -----

  /** `CreateTags`: every requested tag is set. */
  function Apply(instance: map<Text, Text>, tags: seq<Tag>): map<Text, Text>
    decreases tags
  {
    if tags == [] then instance else Apply(instance[tags[0].key := tags[0].value], tags[1..])
  }

  predicate AllPresent(tags: seq<Tag>, instance: map<Text, Text>) {
    forall i | 0 <= i < |tags| :: tags[i].key in instance && instance[tags[i].key] == tags[i].value
  }

  lemma {:induction false} ApplyElsewhere(instance: map<Text, Text>, tags: seq<Tag>, key: Text)
    requires key !in KeysOf(tags)
    ensures key in Apply(instance, tags) <==> key in instance
    ensures key in instance ==> Apply(instance, tags)[key] == instance[key]
    decreases tags
  {
    if tags != [] {
      assert tags == [tags[0]] + tags[1..];
      assert tags[0] in tags;
      ApplyElsewhere(instance[tags[0].key := tags[0].value], tags[1..], key);
    }
  }

  /** Sending an accepted request makes every requested tag present. */
  lemma {:induction false} ApplyMakesPresent(instance: map<Text, Text>, tags: seq<Tag>)
    requires forall i, j | 0 <= i < j < |tags| :: tags[i].key != tags[j].key
    ensures AllPresent(tags, Apply(instance, tags))
    decreases tags
  {
    if tags != [] {
      var next := instance[tags[0].key := tags[0].value];
      ApplyMakesPresent(next, tags[1..]);
      assert tags[0].key !in KeysOf(tags[1..]);
      ApplyElsewhere(next, tags[1..], tags[0].key);
      forall i | 0 <= i < |tags| ensures tags[i].key in Apply(instance, tags)
          && Apply(instance, tags)[tags[i].key] == tags[i].value {
        if i > 0 { assert tags[1..][i - 1] == tags[i]; }
      }
    }
  }

  /** The members every plain JavaScript object inherits. */
  const INHERITED: seq<Text> :=
    [Lit("constructor"), Lit("__proto__"), Lit("__defineGetter__"), Lit("__defineSetter__"), Lit("__lookupGetter__"),
     Lit("__lookupSetter__"), Lit("hasOwnProperty"), Lit("isPrototypeOf"), Lit("propertyIsEnumerable"),
     Lit("toLocaleString"), Lit("toString"), Lit("valueOf")]

  /**
    One rollback entry. `before[key]` is a plain property read, so for a key that is
    absent from the tags but inherited by every object it yields a function: the
    entry then asks for `ec2:CreateTags` without a usable previous value.
  */
  datatype Rollback = DeleteTag(key: Text) | RestoreTag(key: Text, value: Text) | RestoreInherited(key: Text)

  function RollbackEntry(before: map<Text, Text>, tag: Tag): Rollback {
    if tag.key in before then RestoreTag(tag.key, before[tag.key])
    else if tag.key in INHERITED then RestoreInherited(tag.key)
    else DeleteTag(tag.key)
  }

  function BuildRollback(before: map<Text, Text>, tags: seq<Tag>): seq<Rollback> {
    seq(|tags|, i requires 0 <= i < |tags| => RollbackEntry(before, tags[i]))
  }

  function UndoOne(instance: map<Text, Text>, entry: Rollback): map<Text, Text> {
    match entry
    case DeleteTag(key) => instance - {key}
    case RestoreTag(key, value) => instance[key := value]
    case RestoreInherited(key) => instance[key := []]
  }

  function ApplyRollback(instance: map<Text, Text>, entries: seq<Rollback>): map<Text, Text>
    decreases entries
  {
    if entries == [] then instance else ApplyRollback(UndoOne(instance, entries[0]), entries[1..])
  }

  /** What one key looks like after the rollback. */
  lemma {:induction false} RollbackAt(instance: map<Text, Text>, before: map<Text, Text>, tags: seq<Tag>, key: Text)
    ensures var after := ApplyRollback(instance, BuildRollback(before, tags));
            && (key !in KeysOf(tags) ==>
                  (key in after <==> key in instance) && (key in instance ==> after[key] == instance[key]))
            && (key in KeysOf(tags) ==>
                  && (key in after <==> key in before || key in INHERITED)
                  && (key in before ==> after[key] == before[key]))
    decreases tags
  {
    hide RollbackEntry;
    if tags != [] {
      var rest := tags[1..];
      assert tags == [tags[0]] + rest;
      assert BuildRollback(before, tags)[0] == RollbackEntry(before, tags[0]);
      assert BuildRollback(before, tags)[1..] == BuildRollback(before, rest);
      var next := UndoOne(instance, RollbackEntry(before, tags[0]));
      RollbackAt(next, before, rest, key);
      assert key in KeysOf(tags) <==> key == tags[0].key || key in KeysOf(rest);
      UndoAt(instance, before, tags[0], key);
    }
  }

  lemma UndoAt(instance: map<Text, Text>, before: map<Text, Text>, tag: Tag, key: Text)
    ensures var next := UndoOne(instance, RollbackEntry(before, tag));
            && (key != tag.key ==>
                  (key in next <==> key in instance) && (key in instance ==> next[key] == instance[key]))
            && (key == tag.key ==> (key in next <==> key in before || key in INHERITED)
                                   && (key in before ==> next[key] == before[key]))
  {}

  /**
    Sending a request and then rolling it back restores the instance exactly when no
    requested key is one that plain objects inherit and the instance did not have.
  */
  lemma RollbackRestoresIff(before: map<Text, Text>, tags: seq<Tag>)
    ensures ApplyRollback(Apply(before, tags), BuildRollback(before, tags)) == before
       <==> forall t | t in tags :: t.key in before || t.key !in INHERITED
  {
    hide RollbackEntry;
    var sent := Apply(before, tags);
    var after := ApplyRollback(sent, BuildRollback(before, tags));
    if forall t | t in tags :: t.key in before || t.key !in INHERITED {
      forall key ensures (key in after <==> key in before) && (key in before ==> after[key] == before[key]) {
        RollbackAt(sent, before, tags, key);
        if key !in KeysOf(tags) { ApplyElsewhere(before, tags, key); }
      }
      assert after == before;
    } else {
      var t :| t in tags && t.key !in before && t.key in INHERITED;
      RollbackAt(sent, before, tags, t.key);
      assert t.key in KeysOf(tags);
    }
  }

  /**
    An accepted request whose rollback leaves a tag behind. For `__proto__` the recorded
    previous value is a plain object and the recorded operation is to create the tag,
    where only deleting it would restore the instance; nothing in the repository
    executes a rollback, so replaying it is modelled as creating the tag with an empty
    value.
  */
  lemma RollbackCanFail()
    ensures var tags := [Tag(Lit("__proto__"), [])];
            && Accepted(tags, [Lit("__proto__")])
            && BuildRollback(map[], tags) == [RestoreInherited(Lit("__proto__"))]
            && ApplyRollback(Apply(map[], tags), BuildRollback(map[], tags)) != map[]
  {
    var tags := [Tag(Lit("__proto__"), [])];
    var key := tags[0].key;
    LitDiffers("__proto__", "CloudShieldManaged");
    LitDiffers("__proto__", "CloudShieldProtected");
    LitDiffers("__proto__", "Environment");
    assert key[0] == 0x5F && !IsSpace(key[0]) && !IsReserved(key);
    assert INHERITED[1] == key;
    RollbackRestoresIff(map[], tags);
    assert tags[0] in tags;
  }

  // ----- the safety fingerprint survives an accepted request -----

  /** Sending an accepted request leaves the safety state, hence its fingerprint, as it was. */
  lemma AcceptedKeepsSafetyState(
      resourceId: Text, accountId: Text, region: Text, before: map<Text, Text>, tags: seq<Tag>, allowed: seq<Text>)
    requires Accepted(tags, allowed)
    ensures SS.Build(resourceId, accountId, region, Apply(before, tags), SS.SCHEMA_VERSION, SS.POLICY_VERSION)
         == SS.Build(resourceId, accountId, region, before, SS.SCHEMA_VERSION, SS.POLICY_VERSION)
  {
    forall i | 0 <= i < 3
      ensures SS.ReadControlTag(Apply(before, tags), SS.CONTROL_KEYS[i])
          == SS.ReadControlTag(before, SS.CONTROL_KEYS[i])
    {
      assert SS.CONTROL_KEYS[i] in SS.CONTROL_KEYS;
      assert SS.CONTROL_KEYS[i] !in KeysOf(tags);
      ApplyElsewhere(before, tags, SS.CONTROL_KEYS[i]);
    }
  }

  // ----- the reconciler's stricter reading -----

  /** `^[a-z]{2}(?:-gov)?-[a-z]+-\d$` */
  predicate IsReconcilerRegion(t: Text) {
    && |t| >= 6 && SS.IsLower(t[0]) && SS.IsLower(t[1])
    && (RegionSuffix(t[2..]) || (t[2..6] == Lit("-gov") && RegionSuffix(t[6..])))
  }

  predicate RegionSuffix(t: Text) {
    && |t| >= 4 && t[0] == 0x2D && t[|t| - 2] == 0x2D && SS.IsDigit(t[|t| - 1])
    && forall i | 1 <= i < |t| - 2 :: SS.IsLower(t[i])
  }

  const ENTRY_KEYS: seq<Text> := [KEY, VALUE]

  /** Why the reconciler refuses a tag, given the keys it has already seen. */
  function EntryProblem(entry: Value, seen: set<Text>): Option<string> {
    if !entry.Obj? then Some("Approved requested tag is malformed.")
    else if !HasExactly(entry.fields, ENTRY_KEYS) then Some("Approved requested tag contains unexpected fields.")
    else
      var key, value := Get(entry.fields, KEY), Get(entry.fields, VALUE);
      if !key.Str? || !value.Str? || key.text == [] then Some("Approved requested tag key or value is malformed.")
      else if |key.text| > 128 || |value.text| > 256 then Some("Approved requested tag exceeds AWS limits.")
      else if IsReserved(key.text) then Some("Approved requested tag uses an AWS-reserved prefix.")
      else if key.text in seen then Some("Approved requested tags contain duplicate keys.")
      else None
  }

  function ApprovedKeys(entries: seq<Value>): set<Text> {
    set e | e in entries && e.Obj? && Get(e.fields, KEY).Str? :: Get(e.fields, KEY).text
  }

  predicate StrictEntries(entries: seq<Value>) {
    forall i | 0 <= i < |entries| :: EntryProblem(entries[i], ApprovedKeys(entries[..i])).None?
  }

  /** Why the parts around the tags are refused. */
  function TargetProblem(payload: Value): Option<string> {
    if !payload.Obj? then Some("Approved reconciliation payload is malformed.")
    else
      var resourceId, region, tags :=
        Get(payload.fields, Lit("resourceId")), Get(payload.fields, Lit("region")), Get(payload.fields, AP.TAGS_KEY);
      if !resourceId.Str? || !SS.IsInstanceId(resourceId.text) then Some("Approved resource ID is malformed.")
      else if !region.Str? || !IsReconcilerRegion(region.text) then Some("Approved region is malformed.")
      else if !tags.Arr? || tags.items == [] then Some("Approved requested tags are missing or malformed.")
      else None
  }

  /** An object of a key and a value and nothing else: texts within the limits, the key free to use. */
  predicate IsStrict(entry: Value) {
    && entry.Obj? && HasExactly(entry.fields, ENTRY_KEYS)
    && Get(entry.fields, KEY).Str? && Get(entry.fields, VALUE).Str?
    && 1 <= |Get(entry.fields, KEY).text| <= 128 && |Get(entry.fields, VALUE).text| <= 256
    && !IsReserved(Get(entry.fields, KEY).text)
  }

  lemma EntryPassesIff(entry: Value, seen: set<Text>)
    ensures EntryProblem(entry, seen).None? <==> IsStrict(entry) && Get(entry.fields, KEY).text !in seen
  {
    hide HasExactly, Get, IsReserved;
  }

  /** The list is accepted exactly when every entry is strict and no two have one key. */
  lemma StrictIff(entries: seq<Value>)
    ensures StrictEntries(entries) <==>
              && (forall i | 0 <= i < |entries| :: IsStrict(entries[i]))
              && forall i, j | 0 <= i < j < |entries| && entries[i].Obj? && entries[j].Obj? ::
                   Get(entries[i].fields, KEY) != Get(entries[j].fields, KEY)
  {
    hide EntryProblem, Get, HasExactly, IsReserved;
    forall i | 0 <= i < |entries|
      ensures EntryProblem(entries[i], ApprovedKeys(entries[..i])).None? <==>
                IsStrict(entries[i]) && Get(entries[i].fields, KEY).text !in ApprovedKeys(entries[..i])
    {
      EntryPassesIff(entries[i], ApprovedKeys(entries[..i]));
    }
    if StrictEntries(entries) {
      forall i, j | 0 <= i < j < |entries| ensures Get(entries[i].fields, KEY) != Get(entries[j].fields, KEY) {
        assert entries[..j][i] == entries[i] && entries[i] in entries[..j];
      }
    }
  }

  /** The parts around the tags pass exactly when they name an instance and a region and list some tags. */
  lemma TargetPassesIff(payload: Value)
    ensures TargetProblem(payload).None? <==>
              && payload.Obj?
              && var id, region, tags :=
                   Get(payload.fields, Lit("resourceId")), Get(payload.fields, Lit("region")),
                   Get(payload.fields, AP.TAGS_KEY);
                 id.Str? && SS.IsInstanceId(id.text) && region.Str? && IsReconcilerRegion(region.text)
                     && tags.Arr? && tags.items != []
  {
    hide Get, SS.IsInstanceId, IsReconcilerRegion;
  }

  /** The reconciler's loop over the entries. */
  method ParseEntries(entries: seq<Value>) returns (r: Result<seq<Tag>, string>)
    ensures r.Ok? <==> StrictEntries(entries)
    ensures r.Err? ==> exists i :: && 0 <= i < |entries| && StrictEntries(entries[..i])
                                   && EntryProblem(entries[i], ApprovedKeys(entries[..i])) == Some(r.error)
    ensures r.Ok? ==> |r.value| == |entries| && forall i | 0 <= i < |entries| ::
        RequestedTag(entries[i]) == Some(r.value[i])
    ensures r.Ok? ==> forall i, j | 0 <= i < j < |r.value| :: r.value[i].key != r.value[j].key
  {
    hide EntryProblem, RequestedTag;
    var seen: set<Text> := {};
    var parsed: seq<Tag> := [];
    for n := 0 to |entries|
      invariant seen == ApprovedKeys(entries[..n]) == KeysOf(parsed)
      invariant StrictEntries(entries[..n])
      invariant |parsed| == n && forall i | 0 <= i < n :: RequestedTag(entries[i]) == Some(parsed[i])
      invariant forall i, j | 0 <= i < j < n :: parsed[i].key != parsed[j].key
    {
      var entry := entries[n];
      var problem := EntryProblem(entry, seen);
      ExtendStrict(entries, n);
      if problem.Some? {
        return Err(problem.value);
      }
      EntryAccepted(entry, seen);
      var tag := Tag(Get(entry.fields, KEY).text, Get(entry.fields, VALUE).text);
      forall i | 0 <= i < n ensures parsed[i].key != tag.key {
        assert parsed[i] in parsed;
      }
      seen := seen + {tag.key};
      parsed := parsed + [tag];
    }
    assert entries[..|entries|] == entries;
    return Ok(parsed);
  }

  lemma EntryAccepted(entry: Value, seen: set<Text>)
    requires EntryProblem(entry, seen).None?
    ensures entry.Obj? && Get(entry.fields, KEY).Str? && Get(entry.fields, VALUE).Str?
    ensures RequestedTag(entry) == Some(Tag(Get(entry.fields, KEY).text, Get(entry.fields, VALUE).text))
    ensures Get(entry.fields, KEY).text !in seen
  {}

  /** The reconciler's parser; what it accepts is what the worker reads from the same payload. */
  method ParseApprovedRequestedTags(payload: Value) returns (r: Result<seq<Tag>, string>)
    ensures TargetProblem(payload).Some? ==> r == Err(TargetProblem(payload).value)
    ensures TargetProblem(payload).None? ==>
              var entries := Get(payload.fields, AP.TAGS_KEY).items;
              && (r.Ok? <==> StrictEntries(entries))
              && (r.Err? ==> exists i :: && 0 <= i < |entries| && StrictEntries(entries[..i])
                                         && EntryProblem(entries[i], ApprovedKeys(entries[..i])) == Some(r.error))
    ensures r.Ok? ==> RequestedTags(payload) == Some(r.value) && r.value != []
    ensures r.Ok? ==> forall i, j | 0 <= i < j < |r.value| :: r.value[i].key != r.value[j].key
    ensures ApprovedTags(payload) == if r.Ok? then Some(r.value) else None
  {
    var problem := TargetProblem(payload);
    if problem.Some? {
      return Err(problem.value);
    }
    r := ParseEntries(Get(payload.fields, AP.TAGS_KEY).items);
    if r.Ok? {
      ParsedIsRequested(Get(payload.fields, AP.TAGS_KEY).items, r.value);
    }
  }

  /** What the parser returns, as a function: the tags, when it accepts. */
  function ApprovedTags(payload: Value): Option<seq<Tag>> {
    if TargetProblem(payload).Some? || !StrictEntries(Get(payload.fields, AP.TAGS_KEY).items) then None
    else RequestedTags(payload)
  }

  lemma ExtendStrict(entries: seq<Value>, n: nat)
    requires n < |entries| && StrictEntries(entries[..n])
    ensures StrictEntries(entries[..n + 1]) <==> EntryProblem(entries[n], ApprovedKeys(entries[..n])).None?
    ensures EntryProblem(entries[n], ApprovedKeys(entries[..n])).Some? ==> !StrictEntries(entries)
    ensures EntryProblem(entries[n], ApprovedKeys(entries[..n])).None? ==>
              ApprovedKeys(entries[..n + 1]) == ApprovedKeys(entries[..n]) + {Get(entries[n].fields, KEY).text}
  {
    hide EntryProblem, Get;
    var p, q := entries[..n], entries[..n + 1];
    assert q == p + [entries[n]];
    assert forall i | 0 <= i < n :: q[i] == p[i] && q[..i] == p[..i];
    assert q[..n] == p && q[n] == entries[n];
    ApprovedKeysGrow(entries, n);
  }

  lemma ApprovedKeysGrow(entries: seq<Value>, n: nat)
    requires n < |entries|
    ensures EntryProblem(entries[n], ApprovedKeys(entries[..n])).None? ==>
              entries[n].Obj? && Get(entries[n].fields, KEY).Str?
              && ApprovedKeys(entries[..n + 1]) == ApprovedKeys(entries[..n]) + {Get(entries[n].fields, KEY).text}
  {
    assert entries[..n + 1] == entries[..n] + [entries[n]];
  }

  lemma ParsedIsRequested(entries: seq<Value>, parsed: seq<Tag>)
    requires |parsed| == |entries| && forall i | 0 <= i < |entries| :: RequestedTag(entries[i]) == Some(parsed[i])
    ensures None !in Mapped(RequestedTag, entries)
    ensures Mapped(Unwrap, Mapped(RequestedTag, entries)) == parsed
  {}
}
