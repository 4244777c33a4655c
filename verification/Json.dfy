/**
  JSON values, their canonical form and the compact text `JSON.stringify` prints.

  An object is a sequence of fields with distinct keys, in the order in which
  JavaScript enumerates them; what an object *means* is the finite map `Meaning`
  gives it. The main result is that canonical texts are equal exactly when the
  meanings are.
*/
module Json {
  import opened Sorting
  import opened JsonText

  /** A finite number is represented by its JavaScript decimal text (so -0 and 0 coincide). */
  datatype Value =
    | Null
    | Bool(b: bool)
    | Num(lit: Text)
    | Str(text: Text)
    | Arr(items: seq<Value>)
    | Obj(fields: seq<Field>)
    | Unsupported // undefined, non-finite numbers, dates, functions, symbols, big integers

  datatype Field = Field(key: Text, value: Value)

  /** Values with object key order forgotten. */
  datatype Meaning =
    | MNull
    | MBool(b: bool)
    | MNum(lit: Text)
    | MStr(text: Text)
    | MArr(items: seq<Meaning>)
    | MObj(members: map<Text, Meaning>)
    | MUnsupported

  // ----- objects -----

  ghost predicate DistinctKeys(fields: seq<Field>) {
    forall i, j | 0 <= i < j < |fields| :: fields[i].key != fields[j].key
  }

  function KeySet(fields: seq<Field>): set<Text> {
    set f | f in fields :: f.key
  }

  /** The position of a key, or the length when it is absent. */
  function IndexOf(fields: seq<Field>, key: Text): (i: nat)
    ensures i <= |fields|
    ensures i < |fields| ==> fields[i].key == key
    ensures i == |fields| <==> key !in KeySet(fields)
  {
    if fields == [] then 0
    else if fields[0].key == key then 0
    else
      assert fields == [fields[0]] + fields[1..];
      1 + IndexOf(fields[1..], key)
  }

  /** A property read: `undefined` is what a missing property yields. */
  function Get(fields: seq<Field>, key: Text): Value {
    var i := IndexOf(fields, key);
    if i < |fields| then fields[i].value else Unsupported
  }

  lemma IndexOfKey(fields: seq<Field>, i: nat)
    requires i < |fields| && DistinctKeys(fields)
    ensures IndexOf(fields, fields[i].key) == i
  {
    assert fields[i] in fields;
  }

  function MeaningOf(v: Value): Meaning {
    match v
    case Null => MNull
    case Bool(b) => MBool(b)
    case Num(lit) => MNum(lit)
    case Str(text) => MStr(text)
    case Arr(items) => MArr(seq(|items|, i requires 0 <= i < |items| => MeaningOf(items[i])))
    case Obj(fields) =>
      MObj(map k | k in KeySet(fields) :: MeaningOf(fields[IndexOf(fields, k)].value))
    case Unsupported => MUnsupported
  }

  // ----- well-formedness and support -----

  predicate NumUnit(u: CodeUnit) {
    0x30 <= u <= 0x39 || u == 0x2B || u == 0x2D || u == 0x2E || u == 0x65
  }

  predicate NumText(t: Text) {
    t != [] && (0x30 <= t[0] <= 0x39 || t[0] == 0x2D) && forall i | 0 <= i < |t| :: NumUnit(t[i])
  }

  /** Objects have distinct keys and numbers are printed numbers. */
  ghost predicate WellFormed(v: Value) {
    match v
    case Num(lit) => NumText(lit)
    case Arr(items) => forall i | 0 <= i < |items| :: WellFormed(items[i])
    case Obj(fields) => DistinctKeys(fields) && forall i | 0 <= i < |fields| :: WellFormed(fields[i].value)
    case _ => true
  }

  /** No part of the value makes `canonicalValue` throw. */
  predicate Supported(v: Value) {
    match v
    case Arr(items) => forall i | 0 <= i < |items| :: Supported(items[i])
    case Obj(fields) => forall i | 0 <= i < |fields| :: Supported(fields[i].value)
    case Unsupported => false
    case _ => true
  }

  ghost predicate IsJson(v: Value) {
    WellFormed(v) && Supported(v)
  }

  // ----- canonical form -----

  predicate KeyLe(f: Field, g: Field) {
    LexLe(f.key, g.key)
  }

  predicate AllDigits(t: Text) {
    forall i | 0 <= i < |t| :: 0x30 <= t[i] <= 0x39
  }

  function DecimalValue(t: Text): int {
    if t == [] then 0 else DecimalValue(t[..|t| - 1]) * 10 + t[|t| - 1] - 0x30
  }

  /** Keys that JavaScript enumerates first, in numeric order. */
  predicate IsArrayIndex(key: Text) {
    && key != [] && AllDigits(key)
    && (key[0] == 0x30 ==> |key| == 1)
    && DecimalValue(key) < 0xFFFF_FFFF
  }

  predicate IndexLe(f: Field, g: Field) {
    DecimalValue(f.key) <= DecimalValue(g.key)
  }

  function Keep(fields: seq<Field>, indexKeys: bool): seq<Field> {
    if fields == [] then []
    else (if IsArrayIndex(fields[0].key) == indexKeys then [fields[0]] else []) + Keep(fields[1..], indexKeys)
  }

  /** The enumeration order of an object created by inserting `fields` one after another. */
  function EnumerationOrder(fields: seq<Field>): seq<Field> {
    SortBy(IndexLe, Keep(fields, true)) + Keep(fields, false)
  }

  function CanonicalFields(fields: seq<Field>): seq<Field> {
    EnumerationOrder(SortBy(KeyLe, fields))
  }

  function Canonical(v: Value): Value {
    match v
    case Arr(items) => Arr(seq(|items|, i requires 0 <= i < |items| => Canonical(items[i])))
    case Obj(fields) => Obj(CanonicalFields(WithCanonicalValues(fields)))
    case _ => v
  }

  function WithCanonicalValues(fields: seq<Field>): seq<Field> {
    seq(|fields|, i requires 0 <= i < |fields| => Field(fields[i].key, Canonical(fields[i].value)))
  }

  // ----- canonicalisation keeps the meaning -----

  lemma {:induction false} KeepPartitions(fields: seq<Field>)
    ensures multiset(Keep(fields, true) + Keep(fields, false)) == multiset(fields)
  {
    if fields != [] {
      KeepPartitions(fields[1..]);
      assert fields == [fields[0]] + fields[1..];
      assert multiset(fields) == multiset{fields[0]} + multiset(fields[1..]);
    }
  }

  lemma CanonicalFieldsPermute(fields: seq<Field>)
    ensures multiset(CanonicalFields(fields)) == multiset(fields)
  {
    var sorted := SortBy(KeyLe, fields);
    SortPermutes(KeyLe, fields);
    KeepPartitions(sorted);
    SortPermutes(IndexLe, Keep(sorted, true));
  }

  lemma DistinctKeysOfPermutation(a: seq<Field>, b: seq<Field>)
    requires DistinctKeys(a) && multiset(a) == multiset(b)
    ensures DistinctKeys(b)
  {
    PermutationStaysDistinct(a, b);
    forall i, j | 0 <= i < j < |b| ensures b[i].key != b[j].key {
      assert b[i] in multiset(a) && b[j] in multiset(a);
      var k :| 0 <= k < |a| && a[k] == b[i];
      var l :| 0 <= l < |a| && a[l] == b[j];
    }
  }

  /** Objects with distinct keys mean the same map when they relate equal keys to equal meanings. */
  lemma ObjectMeaning(fields: seq<Field>)
    requires DistinctKeys(fields)
    ensures MeaningOf(Obj(fields)).members.Keys == KeySet(fields)
    ensures forall f | f in fields :: f.key in MeaningOf(Obj(fields)).members
                                      && MeaningOf(Obj(fields)).members[f.key] == MeaningOf(f.value)
  {
    forall f | f in fields
      ensures f.key in MeaningOf(Obj(fields)).members && MeaningOf(Obj(fields)).members[f.key] == MeaningOf(f.value)
    {
      var i :| 0 <= i < |fields| && fields[i] == f;
      IndexOfKey(fields, i);
      assert f.key in KeySet(fields);
    }
  }

  /** A member means what reading the property yields. */
  lemma MemberMeaning(fields: seq<Field>, key: Text)
    requires DistinctKeys(fields) && key in KeySet(fields)
    ensures key in MeaningOf(Obj(fields)).members
    ensures MeaningOf(Obj(fields)).members[key] == MeaningOf(Get(fields, key))
  {
    var i := IndexOf(fields, key);
    assert fields[i] in fields;
    ObjectMeaning(fields);
  }

  lemma ObjectsMeanTheSame(a: seq<Field>, b: seq<Field>)
    requires DistinctKeys(a) && DistinctKeys(b)
    requires forall f | f in a :: exists g :: g in b && g.key == f.key && MeaningOf(g.value) == MeaningOf(f.value)
    requires KeySet(b) <= KeySet(a)
    ensures MeaningOf(Obj(a)) == MeaningOf(Obj(b))
  {
    ObjectMeaning(a);
    ObjectMeaning(b);
    var m, n := MeaningOf(Obj(a)).members, MeaningOf(Obj(b)).members;
    forall k | k in m ensures k in n && m[k] == n[k] {
      var f :| f in a && f.key == k;
      var g :| g in b && g.key == f.key && MeaningOf(g.value) == MeaningOf(f.value);
    }
    assert m.Keys == n.Keys;
    assert m == n;
  }

  lemma {:induction false} CanonicalKeepsMeaning(v: Value)
    requires WellFormed(v)
    ensures WellFormed(Canonical(v)) && MeaningOf(Canonical(v)) == MeaningOf(v)
    ensures Supported(v) ==> Supported(Canonical(v))
  {
    match v
    case Arr(items) =>
      forall i | 0 <= i < |items|
        ensures WellFormed(Canonical(items[i])) && MeaningOf(Canonical(items[i])) == MeaningOf(items[i])
        ensures Supported(items[i]) ==> Supported(Canonical(items[i]))
      {
        CanonicalKeepsMeaning(items[i]);
      }
      assert MeaningOf(Canonical(v)).items == MeaningOf(v).items;
    case Obj(fields) =>
      forall i | 0 <= i < |fields|
        ensures WellFormed(Canonical(fields[i].value))
            && MeaningOf(Canonical(fields[i].value)) == MeaningOf(fields[i].value)
        ensures Supported(fields[i].value) ==> Supported(Canonical(fields[i].value))
      {
        CanonicalKeepsMeaning(fields[i].value);
      }
      CanonicalObject(fields);
    case _ =>
  }

  /** The fields of a canonical object are the given ones with canonical values. */
  lemma CanonicalFieldsFrom(fields: seq<Field>)
    requires DistinctKeys(fields)
    ensures var outer := CanonicalFields(WithCanonicalValues(fields));
            && DistinctKeys(outer)
            && (forall f | f in outer ::
                  exists i :: 0 <= i < |fields| && f == Field(fields[i].key, Canonical(fields[i].value)))
            && (forall i | 0 <= i < |fields| :: Field(fields[i].key, Canonical(fields[i].value)) in outer)
  {
    var inner := WithCanonicalValues(fields);
    var outer := CanonicalFields(inner);
    CanonicalFieldsPermute(inner);
    DistinctKeysOfPermutation(inner, outer);
    forall f | f in outer
      ensures exists i :: 0 <= i < |fields| && f == Field(fields[i].key, Canonical(fields[i].value))
    {
      assert f in multiset(inner);
      var i :| 0 <= i < |inner| && inner[i] == f;
    }
    forall i | 0 <= i < |fields| ensures Field(fields[i].key, Canonical(fields[i].value)) in outer {
      assert inner[i] in multiset(outer);
    }
  }

  lemma CanonicalObject(fields: seq<Field>)
    requires DistinctKeys(fields)
    requires forall i | 0 <= i < |fields| ::
               WellFormed(Canonical(fields[i].value))
                   && MeaningOf(Canonical(fields[i].value)) == MeaningOf(fields[i].value)
               && (Supported(fields[i].value) ==> Supported(Canonical(fields[i].value)))
    ensures WellFormed(Canonical(Obj(fields))) && MeaningOf(Canonical(Obj(fields))) == MeaningOf(Obj(fields))
    ensures Supported(Obj(fields)) ==> Supported(Canonical(Obj(fields)))
  {
    var outer := CanonicalFields(WithCanonicalValues(fields));
    CanonicalFieldsFrom(fields);
    forall i | 0 <= i < |outer|
      ensures WellFormed(outer[i].value) && (Supported(Obj(fields)) ==> Supported(outer[i].value))
    {
      assert outer[i] in outer;
    }
    CanonicalObjectMeaning(fields, outer);
  }

  lemma CanonicalObjectMeaning(fields: seq<Field>, outer: seq<Field>)
    requires DistinctKeys(fields) && DistinctKeys(outer)
    requires forall i | 0 <= i < |fields| :: MeaningOf(Canonical(fields[i].value)) == MeaningOf(fields[i].value)
    requires forall f | f in outer ::
               exists i :: 0 <= i < |fields| && f == Field(fields[i].key, Canonical(fields[i].value))
    requires forall i | 0 <= i < |fields| :: Field(fields[i].key, Canonical(fields[i].value)) in outer
    ensures MeaningOf(Obj(outer)) == MeaningOf(Obj(fields))
  {
    forall f | f in outer
      ensures exists g :: g in fields && g.key == f.key && MeaningOf(g.value) == MeaningOf(f.value)
    {
      var i :| 0 <= i < |fields| && f == Field(fields[i].key, Canonical(fields[i].value));
      assert fields[i] in fields;
    }
    forall k | k in KeySet(fields) ensures k in KeySet(outer) {
      var f :| f in fields && f.key == k;
      var i :| 0 <= i < |fields| && fields[i] == f;
      assert Field(fields[i].key, Canonical(fields[i].value)) in outer;
    }
    ObjectsMeanTheSame(outer, fields);
  }

  // ----- and depends on nothing else -----

  lemma KeyOrder()
    ensures TotalPreorder(KeyLe)
  {
    forall f: Field, g: Field ensures KeyLe(f, g) || KeyLe(g, f) { LexTotal(f.key, g.key); }
    forall f: Field, g: Field, h: Field | KeyLe(f, g) && KeyLe(g, h) ensures KeyLe(f, h) {
      LexTransitive(f.key, g.key, h.key);
    }
  }

  lemma KeysSeparate(fields: seq<Field>)
    requires DistinctKeys(fields)
    ensures Separates(KeyLe, fields)
  {
    forall f, g | f in fields && g in fields && KeyLe(f, g) && KeyLe(g, f) ensures f == g {
      LexAntisymmetric(f.key, g.key);
    }
  }

  lemma {:induction false} MeaningDeterminesCanonical(v: Value, w: Value)
    requires WellFormed(v) && WellFormed(w) && MeaningOf(v) == MeaningOf(w)
    ensures Canonical(v) == Canonical(w)
  {
    match v
    case Arr(items) =>
      forall i | 0 <= i < |items| ensures Canonical(items[i]) == Canonical(w.items[i]) {
        assert MeaningOf(v).items[i] == MeaningOf(w).items[i];
        MeaningDeterminesCanonical(items[i], w.items[i]);
      }
      assert Canonical(v).items == Canonical(w).items;
    case Obj(fields) =>
      var others := w.fields;
      forall i, j | 0 <= i < |fields| && 0 <= j < |others| && fields[i].key == others[j].key
        ensures Canonical(fields[i].value) == Canonical(others[j].value)
      {
        ObjectMeaning(fields);
        ObjectMeaning(others);
        assert fields[i] in fields && others[j] in others;
        MeaningDeterminesCanonical(fields[i].value, others[j].value);
      }
      assert KeySet(fields) == KeySet(others) by {
        ObjectMeaning(fields);
        ObjectMeaning(others);
      }
      SameCanonicalObject(fields, others);
    case _ =>
  }

  lemma SameCanonicalObject(a: seq<Field>, b: seq<Field>)
    requires DistinctKeys(a) && DistinctKeys(b) && KeySet(a) == KeySet(b)
    requires forall i, j | 0 <= i < |a| && 0 <= j < |b| && a[i].key == b[j].key ::
               Canonical(a[i].value) == Canonical(b[j].value)
    ensures Canonical(Obj(a)) == Canonical(Obj(b))
  {
    var p, q := WithCanonicalValues(a), WithCanonicalValues(b);
    CanonicalFieldsIncluded(a, b);
    CanonicalFieldsIncluded(b, a);
    assert DistinctKeys(p) && DistinctKeys(q);
    SameElementsPermute(p, q);
    KeyOrder();
    KeysSeparate(p);
    SortForgetsOrder(KeyLe, p, q);
  }

  lemma CanonicalFieldsIncluded(a: seq<Field>, b: seq<Field>)
    requires KeySet(a) <= KeySet(b)
    requires forall i, j | 0 <= i < |a| && 0 <= j < |b| && a[i].key == b[j].key ::
               Canonical(a[i].value) == Canonical(b[j].value)
    ensures forall f | f in WithCanonicalValues(a) :: f in WithCanonicalValues(b)
  {
    var p, q := WithCanonicalValues(a), WithCanonicalValues(b);
    forall f | f in p ensures f in q {
      var i :| 0 <= i < |p| && p[i] == f;
      assert a[i] in a;
      assert a[i].key in KeySet(b);
      var g :| g in b && g.key == a[i].key;
      var j :| 0 <= j < |b| && b[j] == g;
      assert q[j] == f;
    }
  }

  /** Canonicalising twice is canonicalising once. */
  lemma CanonicalIdempotent(v: Value)
    requires WellFormed(v)
    ensures Canonical(Canonical(v)) == Canonical(v)
  {
    CanonicalKeepsMeaning(v);
    MeaningDeterminesCanonical(Canonical(v), v);
  }

  // ----- objects with a fixed list of keys -----

  /** The object listing `values` under `keys`, in that order. */
  function ObjectOf(keys: seq<Text>, values: seq<Value>): Value
    requires |keys| == |values|
  {
    Obj(seq(|keys|, i requires 0 <= i < |keys| => Field(keys[i], values[i])))
  }

  /** The object has these keys and no others. */
  predicate HasExactly(fields: seq<Field>, keys: seq<Text>) {
    |fields| == |keys| && forall i | 0 <= i < |keys| :: keys[i] in KeySet(fields)
  }

  function ToSet(keys: seq<Text>): set<Text> {
    set k | k in keys
  }

  lemma {:induction false} DistinctSize(keys: seq<Text>)
    requires Distinct(keys)
    ensures |ToSet(keys)| == |keys|
  {
    if keys != [] {
      assert keys == [keys[0]] + keys[1..];
      DistinctSize(keys[1..]);
      assert ToSet(keys) == {keys[0]} + ToSet(keys[1..]);
    }
  }

  lemma KeySetSize(fields: seq<Field>)
    requires DistinctKeys(fields)
    ensures |KeySet(fields)| == |fields|
  {
    var keys := seq(|fields|, i requires 0 <= i < |fields| => fields[i].key);
    DistinctSize(keys);
    forall k ensures k in ToSet(keys) <==> k in KeySet(fields) {
      if k in ToSet(keys) {
        var i :| 0 <= i < |keys| && keys[i] == k;
        assert fields[i] in fields;
      }
      if k in KeySet(fields) {
        var f :| f in fields && f.key == k;
        var i :| 0 <= i < |fields| && fields[i] == f;
        assert keys[i] == k;
      }
    }
    assert ToSet(keys) == KeySet(fields);
  }

  lemma SubsetOfSameSize(a: set<Text>, b: set<Text>)
    requires a <= b && |a| == |b|
    ensures a == b
  {
    assert |b - a| == |b| - |a|;
    assert b == a + (b - a);
  }

  lemma HasExactlyIff(fields: seq<Field>, keys: seq<Text>)
    requires DistinctKeys(fields) && Distinct(keys)
    ensures HasExactly(fields, keys) <==> KeySet(fields) == ToSet(keys)
  {
    KeySetSize(fields);
    DistinctSize(keys);
    if HasExactly(fields, keys) {
      SubsetOfSameSize(ToSet(keys), KeySet(fields));
    }
    if KeySet(fields) == ToSet(keys) {
      assert forall i | 0 <= i < |keys| :: keys[i] in ToSet(keys);
    }
  }

  lemma ObjectOfFacts(keys: seq<Text>, values: seq<Value>)
    requires |keys| == |values| && Distinct(keys)
    ensures DistinctKeys(ObjectOf(keys, values).fields)
    ensures MeaningOf(ObjectOf(keys, values)).members.Keys == ToSet(keys)
    ensures forall i | 0 <= i < |keys| :: keys[i] in MeaningOf(ObjectOf(keys, values)).members
                                          && MeaningOf(ObjectOf(keys, values)).members[keys[i]] == MeaningOf(values[i])
  {
    var fields := ObjectOf(keys, values).fields;
    ObjectMeaning(fields);
    forall i | 0 <= i < |keys|
      ensures keys[i] in KeySet(fields) && MeaningOf(Obj(fields)).members[keys[i]] == MeaningOf(values[i])
    {
      assert fields[i] in fields;
    }
    forall k | k in KeySet(fields) ensures k in ToSet(keys) {
      var f :| f in fields && f.key == k;
      var i :| 0 <= i < |fields| && fields[i] == f;
      assert keys[i] == k;
    }
    assert KeySet(fields) == ToSet(keys);
  }

  /** Meaning what `ObjectOf` builds is having exactly its keys, with values of the same meanings. */
  lemma MeansObjectOf(fields: seq<Field>, keys: seq<Text>, values: seq<Value>)
    requires DistinctKeys(fields) && |keys| == |values| && Distinct(keys)
    ensures MeaningOf(Obj(fields)) == MeaningOf(ObjectOf(keys, values))
       <==> && HasExactly(fields, keys)
            && forall i | 0 <= i < |keys| :: MeaningOf(Get(fields, keys[i])) == MeaningOf(values[i])
  {
    var m, n := MeaningOf(Obj(fields)).members, MeaningOf(ObjectOf(keys, values)).members;
    assert m.Keys == KeySet(fields);
    HasExactlyIff(fields, keys);
    ObjectOfFacts(keys, values);
    hide MeaningOf, Get, IndexOf;
    forall i | 0 <= i < |keys| && keys[i] in KeySet(fields) ensures m[keys[i]] == MeaningOf(Get(fields, keys[i])) {
      MemberMeaning(fields, keys[i]);
    }
    if m == n {
      assert KeySet(fields) == ToSet(keys);
      forall i | 0 <= i < |keys| ensures MeaningOf(Get(fields, keys[i])) == MeaningOf(values[i]) {
        assert keys[i] in n;
      }
    }
    if HasExactly(fields, keys) && forall i | 0 <= i < |keys| ::
        MeaningOf(Get(fields, keys[i])) == MeaningOf(values[i]) {
      forall k | k in m ensures k in n && m[k] == n[k] {
        assert k in ToSet(keys);
        var i :| 0 <= i < |keys| && keys[i] == k;
      }
      assert m == n;
    }
  }

  // ----- the printer -----

  const COMMA: CodeUnit := 0x2C
  const COLON: CodeUnit := 0x3A
  const OPEN_BRACKET: CodeUnit := 0x5B
  const CLOSE_BRACKET: CodeUnit := 0x5D
  const OPEN_BRACE: CodeUnit := 0x7B
  const CLOSE_BRACE: CodeUnit := 0x7D

  const NULL_TEXT: Text := [0x6E, 0x75, 0x6C, 0x6C]
  const TRUE_TEXT: Text := [0x74, 0x72, 0x75, 0x65]
  const FALSE_TEXT: Text := [0x66, 0x61, 0x6C, 0x73, 0x65]

  /** `JSON.stringify` without indentation; only called on supported values. */
  function Print(v: Value): Text
    decreases v, 1
  {
    match v
    case Null => NULL_TEXT
    case Bool(b) => if b then TRUE_TEXT else FALSE_TEXT
    case Num(lit) => lit
    case Str(text) => Quote(text)
    case Arr(items) => [OPEN_BRACKET] + PrintItems(items, false)
    case Obj(fields) => [OPEN_BRACE] + PrintFields(fields, false)
    case Unsupported => NULL_TEXT
  }

  function Separator(more: bool): Text {
    if more then [COMMA] else []
  }

  function PrintItems(items: seq<Value>, more: bool): Text
    decreases items, 0
  {
    if items == [] then [CLOSE_BRACKET]
    else Separator(more) + (Print(items[0]) + PrintItems(items[1..], true))
  }

  function PrintFields(fields: seq<Field>, more: bool): Text
    decreases fields, 0
  {
    if fields == [] then [CLOSE_BRACE]
    else
      Separator(more)
      + (Quote(fields[0].key) + ([COLON] + (Print(fields[0].value) + PrintFields(fields[1..], true))))
  }

  // ----- the printed text determines the value -----

  /** What may follow a printed value without being taken for a part of it. */
  ghost predicate Boundary(t: Text) {
    t == [] || t[0] == COMMA || t[0] == CLOSE_BRACKET || t[0] == CLOSE_BRACE
  }

  /** The kind of a value as its first printed unit shows it. */
  ghost predicate StartsLike(v: Value, u: CodeUnit) {
    match v
    case Null => u == 0x6E
    case Bool(b) => u == if b then 0x74 else 0x66
    case Num(_) => 0x30 <= u <= 0x39 || u == 0x2D
    case Str(_) => u == QUOTE
    case Arr(_) => u == OPEN_BRACKET
    case Obj(_) => u == OPEN_BRACE
    case Unsupported => false
  }

  lemma PrintStart(v: Value)
    requires IsJson(v)
    ensures Print(v) != [] && StartsLike(v, Print(v)[0])
  {}

  lemma NumSplits(a: Text, b: Text, x: Text, y: Text)
    requires NumText(a) && NumText(b) && Boundary(x) && Boundary(y) && a + x == b + y
    ensures a == b && x == y
  {
    NumRunsOn(a, b, x, y);
    NumRunsOn(b, a, y, x);
    CancelPrefix(a, x, b, y);
  }

  lemma NumRunsOn(a: Text, b: Text, x: Text, y: Text)
    requires NumText(b) && a + x == b + y
    ensures |a| < |b| ==> x != [] && NumUnit(x[0])
  {
    if |a| < |b| {
      assert |a + x| >= |b|;
      assert x[0] == (a + x)[|a|] == (b + y)[|a|] == b[|a|];
    }
  }

  /** Values that print the same first unit are of the same kind. */
  lemma SameKind(v: Value, w: Value, u: CodeUnit)
    requires StartsLike(v, u) && StartsLike(w, u)
    ensures v.Null? == w.Null? && v.Bool? == w.Bool? && v.Num? == w.Num? && v.Str? == w.Str?
    ensures v.Arr? == w.Arr? && v.Obj? == w.Obj?
    ensures v.Bool? ==> v == w
  {}

  /** A printed value can be split off the front of a text in one way only. */
  lemma {:induction false} PrintSplits(v: Value, w: Value, x: Text, y: Text)
    requires IsJson(v) && IsJson(w) && Boundary(x) && Boundary(y)
    requires Print(v) + x == Print(w) + y
    ensures v == w && x == y
    decreases v, 1
  {
    PrintStart(v);
    PrintStart(w);
    assert Print(v)[0] == (Print(v) + x)[0] == (Print(w) + y)[0] == Print(w)[0];
    SameKind(v, w, Print(v)[0]);
    match v {
      case Num(a) => NumSplits(a, w.lit, x, y);
      case Str(a) => QuoteSplits(a, w.text, x, y);
      case Arr(items) =>
        BodySplits(OPEN_BRACKET, PrintItems(items, false), PrintItems(w.items, false), x, y);
        ItemsSplit(items, w.items, false, x, y);
      case Obj(fields) =>
        BodySplits(OPEN_BRACE, PrintFields(fields, false), PrintFields(w.fields, false), x, y);
        FieldsSplit(fields, w.fields, false, x, y);
      case _ => CancelPrefix(Print(v), x, Print(w), y);
    }
  }

  lemma BodySplits(open: CodeUnit, a: Text, b: Text, x: Text, y: Text)
    requires [open] + a + x == [open] + b + y
    ensures a + x == b + y
  {
    assert a + x == ([open] + a + x)[1..] && b + y == ([open] + b + y)[1..];
  }

  lemma ListEnd(u: CodeUnit, t: Text, x: Text)
    ensures ([u] + x)[0] == u && ([u] + x)[1..] == x
  {}

  /** The printed tail of a list that has an element, cut after the separator. */
  lemma ItemsHead(items: seq<Value>, more: bool, x: Text)
    requires items != []
    ensures PrintItems(items, more) + x
         == Separator(more) + (Print(items[0]) + (PrintItems(items[1..], true) + x))
  {}

  lemma {:induction false} ItemsSplit(a: seq<Value>, b: seq<Value>, more: bool, x: Text, y: Text)
    requires forall i | 0 <= i < |a| :: IsJson(a[i])
    requires forall i | 0 <= i < |b| :: IsJson(b[i])
    requires PrintItems(a, more) + x == PrintItems(b, more) + y
    ensures a == b && x == y
    decreases a, 0
  {
    ItemsStart(a, more, x);
    ItemsStart(b, more, y);
    if a == [] {
      ListEnd(CLOSE_BRACKET, [], x);
      ListEnd(CLOSE_BRACKET, [], y);
    } else {
      ItemsHead(a, more, x);
      ItemsHead(b, more, y);
      var p, q := PrintItems(a[1..], true) + x, PrintItems(b[1..], true) + y;
      CancelPrefix(Separator(more), Print(a[0]) + p, Separator(more), Print(b[0]) + q);
      ItemsStart(a[1..], true, x);
      ItemsStart(b[1..], true, y);
      PrintSplits(a[0], b[0], p, q);
      ItemsSplit(a[1..], b[1..], true, x, y);
      assert a == [a[0]] + a[1..] && b == [b[0]] + b[1..];
    }
  }

  lemma ItemsStart(items: seq<Value>, more: bool, x: Text)
    requires forall i | 0 <= i < |items| :: IsJson(items[i])
    ensures PrintItems(items, more) + x != []
    ensures items == [] <==> (PrintItems(items, more) + x)[0] == CLOSE_BRACKET
    ensures more ==> Boundary(PrintItems(items, more) + x)
  {
    if items != [] {
      PrintStart(items[0]);
      ItemsHead(items, more, x);
      if !more {
        assert (PrintItems(items, more) + x)[0] == Print(items[0])[0];
      }
    }
  }

  lemma Associative(a: Text, b: Text, c: Text)
    ensures (a + b) + c == a + (b + c)
  {}

  lemma FieldsHead(fields: seq<Field>, more: bool, x: Text)
    requires fields != []
    ensures PrintFields(fields, more) + x
         == Separator(more) + (Quote(fields[0].key)
            + ([COLON] + (Print(fields[0].value) + (PrintFields(fields[1..], true) + x))))
  {
    var key, value, rest := Quote(fields[0].key), Print(fields[0].value), PrintFields(fields[1..], true);
    Associative(value, rest, x);
    Associative([COLON], value + rest, x);
    Associative(key, [COLON] + (value + rest), x);
    Associative(Separator(more), key + ([COLON] + (value + rest)), x);
  }

  lemma FieldsStart(fields: seq<Field>, more: bool, x: Text)
    ensures PrintFields(fields, more) + x != []
    ensures fields == [] <==> (PrintFields(fields, more) + x)[0] == CLOSE_BRACE
    ensures more ==> Boundary(PrintFields(fields, more) + x)
  {
    if fields != [] {
      FieldsHead(fields, more, x);
      if !more {
        assert (PrintFields(fields, more) + x)[0] == Quote(fields[0].key)[0];
      }
    }
  }

  lemma {:induction false} FieldsSplit(a: seq<Field>, b: seq<Field>, more: bool, x: Text, y: Text)
    requires forall i | 0 <= i < |a| :: IsJson(a[i].value)
    requires forall i | 0 <= i < |b| :: IsJson(b[i].value)
    requires PrintFields(a, more) + x == PrintFields(b, more) + y
    ensures a == b && x == y
    decreases a, 0
  {
    FieldsStart(a, more, x);
    FieldsStart(b, more, y);
    if a == [] {
      ListEnd(CLOSE_BRACE, [], x);
      ListEnd(CLOSE_BRACE, [], y);
    } else {
      FieldsHead(a, more, x);
      FieldsHead(b, more, y);
      var p, q := PrintFields(a[1..], true) + x, PrintFields(b[1..], true) + y;
      var r, s := [COLON] + (Print(a[0].value) + p), [COLON] + (Print(b[0].value) + q);
      CancelPrefix(Separator(more), Quote(a[0].key) + r, Separator(more), Quote(b[0].key) + s);
      QuoteSplits(a[0].key, b[0].key, r, s);
      CancelPrefix([COLON], Print(a[0].value) + p, [COLON], Print(b[0].value) + q);
      FieldsStart(a[1..], true, x);
      FieldsStart(b[1..], true, y);
      PrintSplits(a[0].value, b[0].value, p, q);
      FieldsSplit(a[1..], b[1..], true, x, y);
      assert a == [a[0]] + a[1..] && b == [b[0]] + b[1..];
    }
  }

  lemma PrintInjective(v: Value, w: Value)
    requires IsJson(v) && IsJson(w) && Print(v) == Print(w)
    ensures v == w
  {
    assert Print(v) + [] == Print(v) && Print(w) + [] == Print(w);
    PrintSplits(v, w, [], []);
  }

  // ----- canonical texts -----

  function CanonicalText(v: Value): Text {
    Print(Canonical(v))
  }

  /** Two values have the same canonical text exactly when they are equal up to object key order. */
  lemma CanonicalTextIffMeaning(v: Value, w: Value)
    requires IsJson(v) && IsJson(w)
    ensures CanonicalText(v) == CanonicalText(w) <==> MeaningOf(v) == MeaningOf(w)
  {
    CanonicalKeepsMeaning(v);
    CanonicalKeepsMeaning(w);
    if MeaningOf(v) == MeaningOf(w) {
      MeaningDeterminesCanonical(v, w);
    }
    if CanonicalText(v) == CanonicalText(w) {
      PrintInjective(Canonical(v), Canonical(w));
    }
  }
}
