/**
  JavaScript strings as sequences of UTF-16 code units, their code-unit order, and
  the quoting that `JSON.stringify` applies to them.

  Quoting is the well-formed one: a surrogate pair is copied, a lone surrogate and
  every control character become a `\u` escape.
*/
module JsonText {

  type CodeUnit = u: int | 0 <= u < 0x1_0000

  type Text = seq<CodeUnit>

  /** A literal of the program text; every literal used by the model is ASCII. */
  function Lit(s: string): (t: Text)
    ensures |t| == |s|
    ensures forall i | 0 <= i < |s| :: s[i] < 128 as char ==> t[i] == s[i] as int
  {
    seq(|s|, i requires 0 <= i < |s| => (s[i] as int) % 0x1_0000)
  }

  /** Literals are told apart by their lengths or by their first two characters. */
  lemma LitDiffers(a: string, b: string)
    requires |a| >= 2 && |b| >= 2
    requires a[0] < 128 as char && a[1] < 128 as char && b[0] < 128 as char && b[1] < 128 as char
    requires |a| != |b| || a[0] != b[0] || a[1] != b[1]
    ensures Lit(a) != Lit(b)
  {
    assert Lit(a)[0] == a[0] as int && Lit(b)[0] == b[0] as int;
    assert Lit(a)[1] == a[1] as int && Lit(b)[1] == b[1] as int;
  }

  // ----- code-unit order -----

  /** The relation `compareCodeUnits(a, b) <= 0`. */
  predicate LexLe(a: Text, b: Text) {
    a == [] || (b != [] && (a[0] < b[0] || (a[0] == b[0] && LexLe(a[1..], b[1..]))))
  }

  lemma {:induction false} LexTotal(a: Text, b: Text)
    ensures LexLe(a, b) || LexLe(b, a)
  {
    if a != [] && b != [] { LexTotal(a[1..], b[1..]); }
  }

  lemma {:induction false} LexTransitive(a: Text, b: Text, c: Text)
    requires LexLe(a, b) && LexLe(b, c)
    ensures LexLe(a, c)
  {
    if a != [] && a[0] == b[0] == c[0] { LexTransitive(a[1..], b[1..], c[1..]); }
  }

  lemma {:induction false} LexAntisymmetric(a: Text, b: Text)
    requires LexLe(a, b) && LexLe(b, a)
    ensures a == b
  {
    if a != [] {
      LexAntisymmetric(a[1..], b[1..]);
      assert a == [a[0]] + a[1..] && b == [b[0]] + b[1..];
    }
  }

  // ----- quoting -----

  const QUOTE: CodeUnit := 0x22
  const BACKSLASH: CodeUnit := 0x5C

  predicate IsHighSurrogate(u: CodeUnit) { 0xD800 <= u < 0xDC00 }

  predicate IsLowSurrogate(u: CodeUnit) { 0xDC00 <= u < 0xE000 }

  predicate IsSurrogate(u: CodeUnit) { 0xD800 <= u < 0xE000 }

  /** A lower-case hexadecimal digit. */
  function HexDigit(d: int): CodeUnit
    requires 0 <= d < 16
  {
    if d < 10 then 0x30 + d else 0x61 + d - 10
  }

  function UnicodeEscape(u: CodeUnit): Text {
    [BACKSLASH, 0x75, HexDigit(u / 0x1000), HexDigit(u / 0x100 % 16), HexDigit(u / 16 % 16), HexDigit(u % 16)]
  }

  /** The letter of a two-character escape, or 0 when there is none. */
  function ShortEscape(u: CodeUnit): CodeUnit {
    if u == 0x08 then 0x62
    else if u == 0x09 then 0x74
    else if u == 0x0A then 0x6E
    else if u == 0x0C then 0x66
    else if u == 0x0D then 0x72
    else if u == QUOTE then QUOTE
    else if u == BACKSLASH then BACKSLASH
    else 0
  }

  function EscapeUnit(u: CodeUnit): Text {
    if ShortEscape(u) != 0 then [BACKSLASH, ShortEscape(u)]
    else if u < 0x20 || IsSurrogate(u) then UnicodeEscape(u)
    else [u]
  }

  predicate StartsWithPair(t: Text) {
    |t| >= 2 && IsHighSurrogate(t[0]) && IsLowSurrogate(t[1])
  }

  function Escape(t: Text): Text {
    if t == [] then []
    else if StartsWithPair(t) then [t[0], t[1]] + Escape(t[2..])
    else EscapeUnit(t[0]) + Escape(t[1..])
  }

  function Quote(t: Text): Text {
    [QUOTE] + Escape(t) + [QUOTE]
  }

  lemma CancelPrefix(a: Text, x: Text, b: Text, y: Text)
    requires a + x == b + y && |a| == |b|
    ensures a == b && x == y
  {
    assert a == (a + x)[..|a|] && b == (b + y)[..|b|];
    assert x == (a + x)[|a|..] && y == (b + y)[|b|..];
  }

  lemma HexDetermines(u: CodeUnit, v: CodeUnit)
    requires UnicodeEscape(u) == UnicodeEscape(v)
    ensures u == v
  {
    var a, b := UnicodeEscape(u), UnicodeEscape(v);
    assert forall d, e | 0 <= d < 16 && 0 <= e < 16 && HexDigit(d) == HexDigit(e) :: d == e;
    assert a[2] == b[2] && a[3] == b[3] && a[4] == b[4] && a[5] == b[5];
    Nibbles(u);
    Nibbles(v);
  }

  lemma Nibbles(u: CodeUnit)
    ensures u == (u / 0x1000) * 0x1000 + (u / 0x100 % 16) * 0x100 + (u / 16 % 16) * 16 + u % 16
  {
    assert u == (u / 16) * 16 + u % 16;
    assert u / 16 / 16 == u / 0x100 && u / 0x100 / 16 == u / 0x1000;
  }

  /** One escaped unit can be split off the front of a text in one way only. */
  lemma EscapeUnitSplits(u: CodeUnit, v: CodeUnit, x: Text, y: Text)
    requires EscapeUnit(u) + x == EscapeUnit(v) + y
    ensures u == v && x == y
  {
    var a, b := EscapeUnit(u), EscapeUnit(v);
    assert (a + x)[0] == a[0] && (b + y)[0] == b[0];
    if |a| > 1 && |b| > 1 {
      assert (a + x)[1] == a[1] && (b + y)[1] == b[1];
    }
    CancelPrefix(a, x, b, y);
    if |a| == 6 { HexDetermines(u, v); }
  }

  /** An escaped text followed by its closing quote and whatever comes next. */
  function Closed(t: Text, rest: Text): Text {
    Escape(t) + [QUOTE] + rest
  }

  lemma ClosedPair(t: Text, rest: Text)
    requires StartsWithPair(t)
    ensures Closed(t, rest) == [t[0], t[1]] + Closed(t[2..], rest)
  {
    assert Escape(t) == [t[0], t[1]] + Escape(t[2..]);
  }

  lemma ClosedUnit(t: Text, rest: Text)
    requires t != [] && !StartsWithPair(t)
    ensures Closed(t, rest) == EscapeUnit(t[0]) + Closed(t[1..], rest)
  {
    assert Escape(t) == EscapeUnit(t[0]) + Escape(t[1..]);
  }

  /** The first unit tells whether the text is empty, and whether a surrogate pair comes first. */
  lemma ClosedHead(t: Text, rest: Text)
    ensures Closed(t, rest) != []
    ensures t == [] <==> Closed(t, rest)[0] == QUOTE
    ensures StartsWithPair(t) <==> IsHighSurrogate(Closed(t, rest)[0])
  {
    if StartsWithPair(t) {
      ClosedPair(t, rest);
    } else if t != [] {
      ClosedUnit(t, rest);
      assert Closed(t, rest)[0] == EscapeUnit(t[0])[0];
    }
  }

  /** A closing quote after an escaped text marks where that text ends. */
  lemma {:induction false} EscapeSplits(a: Text, b: Text, x: Text, y: Text)
    requires Closed(a, x) == Closed(b, y)
    ensures a == b && x == y
    decreases |a| + |b|
  {
    ClosedHead(a, x);
    ClosedHead(b, y);
    if a == [] {
      assert x == Closed(a, x)[1..] && y == Closed(b, y)[1..];
    } else if StartsWithPair(a) {
      ClosedPair(a, x);
      ClosedPair(b, y);
      CancelPrefix([a[0], a[1]], Closed(a[2..], x), [b[0], b[1]], Closed(b[2..], y));
      EscapeSplits(a[2..], b[2..], x, y);
      assert [a[0], a[1]][0] == a[0] && [a[0], a[1]][1] == a[1];
      assert a == [a[0], a[1]] + a[2..] && b == [b[0], b[1]] + b[2..];
    } else {
      ClosedUnit(a, x);
      ClosedUnit(b, y);
      EscapeUnitSplits(a[0], b[0], Closed(a[1..], x), Closed(b[1..], y));
      EscapeSplits(a[1..], b[1..], x, y);
      assert a == [a[0]] + a[1..] && b == [b[0]] + b[1..];
    }
  }

  lemma QuoteSplits(a: Text, b: Text, x: Text, y: Text)
    requires Quote(a) + x == Quote(b) + y
    ensures a == b && x == y
  {
    assert (Quote(a) + x)[1..] == Closed(a, x);
    assert (Quote(b) + y)[1..] == Closed(b, y);
    EscapeSplits(a, b, x, y);
  }
}
