/** The paths of validation messages: an identifier after a dot, any other key as a
    JSON string in brackets, a list index in brackets. */
module DiagnosticPaths {
  /** Strings as code points. */
  type Text = seq<nat>

  datatype Step = Field(key: Text) | Index(index: nat)

  const DOT := 0x2e
  const OPEN := 0x5b
  const CLOSE := 0x5d
  const QUOTE := 0x22
  const BACKSLASH := 0x5c

  // ---------------------------------------------------------------- rendering

  predicate Letter(c: nat) { 0x41 <= c <= 0x5a || 0x61 <= c <= 0x7a || c == 0x5f }

  predicate Digit(c: nat) { 0x30 <= c <= 0x39 }

  predicate WordChar(c: nat) { Letter(c) || Digit(c) }

  predicate Identifier(t: Text) { t != [] && Letter(t[0]) && forall i | 0 <= i < |t| :: WordChar(t[i]) }

  function Decimal(n: nat): (d: Text)
    ensures d != [] && forall i | 0 <= i < |d| :: Digit(d[i])
  {
    if n < 10 then [0x30 + n] else Decimal(n / 10) + [0x30 + n % 10]
  }

  function HexDigit(n: nat): (c: nat)
    requires n < 16
  {
    if n < 10 then 0x30 + n else 0x61 + (n - 10)
  }

  /** `\uXXXX` for one UTF-16 unit. */
  function Unit(n: nat): (t: Text)
    requires n < 0x10000
    ensures |t| == 6 && t[0] == BACKSLASH && t[1] == 0x75
  {
    [BACKSLASH, 0x75, HexDigit(n / 0x1000), HexDigit(n / 0x100 % 16), HexDigit(n / 0x10 % 16), HexDigit(n % 16)]
  }

  /** The letter of a short escape, or 0. */
  function ShortEscape(c: nat): nat {
    if c == QUOTE then QUOTE
    else if c == BACKSLASH then BACKSLASH
    else if c == 0x0a then 0x6e
    else if c == 0x0d then 0x72
    else if c == 0x09 then 0x74
    else if c == 0x08 then 0x62
    else if c == 0x0c then 0x66
    else 0
  }

  predicate CodePoint(c: nat) { c < 0x110000 }

  /** One character of `json.dumps(.., ensure_ascii=True)`. */
  function Escape(c: nat): Text
    requires CodePoint(c)
  {
    if ShortEscape(c) != 0 then [BACKSLASH, ShortEscape(c)]
    else if 0x20 <= c <= 0x7e then [c]
    else if c < 0x10000 then Unit(c)
    else Unit(0xd800 + (c - 0x10000) / 0x400) + Unit(0xdc00 + (c - 0x10000) % 0x400)
  }

  predicate Encodable(t: Text) { forall i | 0 <= i < |t| :: CodePoint(t[i]) }

  function EscapeAll(t: Text): Text
    requires Encodable(t)
  {
    if t == [] then [] else Escape(t[0]) + EscapeAll(t[1..])
  }

  function RenderStep(step: Step): (t: Text)
    requires step.Field? ==> Encodable(step.key)
  {
    match step
    case Field(key) =>
      if Identifier(key) then [DOT] + key else [OPEN, QUOTE] + EscapeAll(key) + [QUOTE, CLOSE]
    case Index(i) => [OPEN] + Decimal(i) + [CLOSE]
  }

  predicate Renderable(path: seq<Step>) {
    forall i | 0 <= i < |path| && path[i].Field? :: Encodable(path[i].key)
  }

  function Steps(path: seq<Step>): Text
    requires Renderable(path)
  {
    if path == [] then [] else RenderStep(path[0]) + Steps(path[1..])
  }

  /** A whole path, from the document `$`. */
  function Render(path: seq<Step>): Text
    requires Renderable(path)
  {
    [0x24] + Steps(path)
  }

  // ---------------------------------------------------------------- splitting

  /** A run of characters of one kind ends where the next character is of another. */
  lemma {:induction false} RunsSplit(u: Text, x: Text, v: Text, y: Text, kind: nat -> bool)
    requires u + x == v + y
    requires (forall i | 0 <= i < |u| :: kind(u[i])) && (forall i | 0 <= i < |v| :: kind(v[i]))
    requires (x == [] || !kind(x[0])) && (y == [] || !kind(y[0]))
    ensures u == v && x == y
  {
    if u != [] && v != [] {
      assert u[0] == (u + x)[0] == (v + y)[0] == v[0];
      assert u[1..] + x == (u + x)[1..] == (v + y)[1..] == v[1..] + y;
      RunsSplit(u[1..], x, v[1..], y, kind);
      assert u == [u[0]] + u[1..] && v == [v[0]] + v[1..];
    } else {
      assert u == [] ==> u + x == x;
      assert v == [] ==> v + y == y;
    }
  }

  lemma {:induction false} DecimalInjective(m: nat, n: nat)
    requires Decimal(m) == Decimal(n)
    ensures m == n
  {
    var a, b := Decimal(m), Decimal(n);
    if m >= 10 && n >= 10 {
      assert a[..|a| - 1] == Decimal(m / 10) && b[..|b| - 1] == Decimal(n / 10);
      assert a[|a| - 1] == 0x30 + m % 10 && b[|b| - 1] == 0x30 + n % 10;
      DecimalInjective(m / 10, n / 10);
    }
  }

  lemma Nibbles(n: nat)
    ensures n == 16 * (16 * (16 * (n / 0x1000) + n / 0x100 % 16) + n / 0x10 % 16) + n % 16
  {
    assert n / 0x10 / 0x10 == n / 0x100 && n / 0x100 / 0x10 == n / 0x1000;
    assert n == 16 * (n / 0x10) + n % 16;
    assert n / 0x10 == 16 * (n / 0x10 / 0x10) + n / 0x10 % 16;
    assert n / 0x100 == 16 * (n / 0x100 / 0x10) + n / 0x100 % 16;
  }

  lemma UnitInjective(m: nat, n: nat)
    requires m < 0x10000 && n < 0x10000 && Unit(m) == Unit(n)
    ensures m == n
  {
    hide HexDigit;
    Nibbles(m);
    Nibbles(n);
    var a, b := Unit(m), Unit(n);
    assert a[2] == b[2] && a[3] == b[3] && a[4] == b[4] && a[5] == b[5];
    HexInjective(m / 0x1000, n / 0x1000);
    HexInjective(m / 0x100 % 16, n / 0x100 % 16);
    HexInjective(m / 0x10 % 16, n / 0x10 % 16);
    HexInjective(m % 16, n % 16);
  }

  lemma HexInjective(m: nat, n: nat)
    requires m < 16 && n < 16 && HexDigit(m) == HexDigit(n)
    ensures m == n
  {}

  /** Two units at the front of equal texts are equal, and so is what follows. */
  lemma UnitsSplit(m: nat, x: Text, n: nat, y: Text)
    requires m < 0x10000 && n < 0x10000 && Unit(m) + x == Unit(n) + y
    ensures m == n && x == y
  {
    var s := Unit(m) + x;
    assert s[..6] == Unit(m) && s[..6] == Unit(n);
    assert s[6..] == x && s[6..] == y;
    UnitInjective(m, n);
  }

  predicate Plain(c: nat) { ShortEscape(c) == 0 && 0x20 <= c <= 0x7e }

  predicate Long(c: nat) { ShortEscape(c) == 0 && !(0x20 <= c <= 0x7e) }

  /** No escape of a UTF-16 unit is a prefix of another: the first unit can be read
      back, surrogates included. */
  lemma EscapeSplit(c: nat, x: Text, d: nat, y: Text)
    requires c < 0x10000 && d < 0x10000 && Escape(c) + x == Escape(d) + y
    ensures c == d && x == y
  {
    hide Unit;
    if Long(c) && Long(d) {
      UnitsSplit(c, x, d, y);
    } else {
      var s := Escape(c) + x;
      assert s[0] == Escape(c)[0] == Escape(d)[0];
      if !Plain(c) && !Plain(d) { assert s[1] == Escape(c)[1] == Escape(d)[1]; }
      assert |Escape(c)| == |Escape(d)|;
      assert s[|Escape(c)|..] == x && s[|Escape(d)|..] == y;
    }
  }

  lemma EscapeNotQuote(c: nat, x: Text)
    requires CodePoint(c)
    ensures Escape(c) != [] && (Escape(c) + x)[0] != QUOTE
  {}

  /** A sequence of UTF-16 units. */
  predicate Units(t: Text) { forall i | 0 <= i < |t| :: t[i] < 0x10000 }

  /** A quoted string either ends at once or begins with the escape of a character. */
  lemma QuotedCons(t: Text, x: Text)
    requires Encodable(t)
    ensures t == [] ==> EscapeAll(t) + [QUOTE] + x == [QUOTE] + x && (EscapeAll(t) + [QUOTE] + x)[0] == QUOTE
    ensures t != [] ==> EscapeAll(t) + [QUOTE] + x == Escape(t[0]) + (EscapeAll(t[1..]) + [QUOTE] + x)
                        && (EscapeAll(t) + [QUOTE] + x)[0] != QUOTE
  {
    hide Escape;
    if t != [] {
      EscapeNotQuote(t[0], EscapeAll(t[1..]) + [QUOTE] + x);
      Associate(Escape(t[0]), EscapeAll(t[1..]), [QUOTE], x);
    } else {
      assert [] + [QUOTE] == [QUOTE];
    }
  }

  lemma Associate(a: Text, b: Text, c: Text, d: Text)
    ensures (a + b) + c + d == a + (b + c + d)
  {}

  lemma {:induction false} StringsSplit(t: Text, x: Text, u: Text, y: Text)
    requires Units(t) && Units(u) && EscapeAll(t) + [QUOTE] + x == EscapeAll(u) + [QUOTE] + y
    ensures t == u && x == y
  {
    hide Escape, EscapeAll;
    QuotedCons(t, x);
    QuotedCons(u, y);
    if t != [] && u != [] {
      EscapeSplit(t[0], EscapeAll(t[1..]) + [QUOTE] + x, u[0], EscapeAll(u[1..]) + [QUOTE] + y);
      StringsSplit(t[1..], x, u[1..], y);
      assert t == [t[0]] + t[1..] && u == [u[0]] + u[1..];
    } else {
      assert ([QUOTE] + x)[1..] == x && ([QUOTE] + y)[1..] == y;
    }
  }

  // ---------------------------------------------------------------- decoding

  predicate UnitPath(path: seq<Step>) {
    forall i | 0 <= i < |path| && path[i].Field? :: Units(path[i].key)
  }

  /** What follows a step is the end, or another step. */
  predicate Boundary(x: Text) { x == [] || x[0] == DOT || x[0] == OPEN }

  lemma StepsBound(path: seq<Step>)
    requires Renderable(path)
    ensures Boundary(Steps(path))
  {}

  /** The three shapes of a step are told apart by its first two characters. */
  function Shape(step: Step): nat {
    if step.Index? then 2 else if Identifier(step.key) then 0 else 1
  }

  lemma ShapeShows(a: Step, x: Text)
    requires a.Field? ==> Units(a.key)
    ensures var s := RenderStep(a) + x;
            && |s| >= 2
            && (Shape(a) == 0 ==> s[0] == DOT)
            && (Shape(a) == 1 ==> s[0] == OPEN && s[1] == QUOTE)
            && (Shape(a) == 2 ==> s[0] == OPEN && Digit(s[1]))
  {
    hide EscapeAll;
    if a.Index? {
      assert (RenderStep(a) + x)[1] == Decimal(a.index)[0];
    }
  }

  lemma IdentifierSplit(a: Text, x: Text, b: Text, y: Text)
    requires Identifier(a) && Identifier(b) && [DOT] + a + x == [DOT] + b + y && Boundary(x) && Boundary(y)
    ensures a == b && x == y
  {
    var s := [DOT] + a + x;
    assert s[1..] == a + x && s[1..] == b + y;
    RunsSplit(a, x, b, y, WordChar);
  }

  lemma QuotedSplit(a: Text, x: Text, b: Text, y: Text)
    requires Units(a) && Units(b)
    requires [OPEN, QUOTE] + EscapeAll(a) + [QUOTE, CLOSE] + x == [OPEN, QUOTE] + EscapeAll(b) + [QUOTE, CLOSE] + y
    ensures a == b && x == y
  {
    hide EscapeAll;
    var s := [OPEN, QUOTE] + EscapeAll(a) + [QUOTE, CLOSE] + x;
    assert s[2..] == EscapeAll(a) + [QUOTE] + ([CLOSE] + x);
    assert s[2..] == EscapeAll(b) + [QUOTE] + ([CLOSE] + y);
    StringsSplit(a, [CLOSE] + x, b, [CLOSE] + y);
    assert ([CLOSE] + x)[1..] == x && ([CLOSE] + y)[1..] == y;
  }

  lemma IndexSplit(a: nat, x: Text, b: nat, y: Text)
    requires [OPEN] + Decimal(a) + [CLOSE] + x == [OPEN] + Decimal(b) + [CLOSE] + y
    ensures a == b && x == y
  {
    hide Decimal;
    var s := [OPEN] + Decimal(a) + [CLOSE] + x;
    assert s[1..] == Decimal(a) + ([CLOSE] + x);
    assert s[1..] == Decimal(b) + ([CLOSE] + y);
    RunsSplit(Decimal(a), [CLOSE] + x, Decimal(b), [CLOSE] + y, Digit);
    DecimalInjective(a, b);
    assert ([CLOSE] + x)[1..] == x && ([CLOSE] + y)[1..] == y;
  }

  lemma StepSplit(a: Step, x: Text, b: Step, y: Text)
    requires (a.Field? ==> Units(a.key)) && (b.Field? ==> Units(b.key))
    requires RenderStep(a) + x == RenderStep(b) + y && Boundary(x) && Boundary(y)
    ensures a == b && x == y
  {
    hide EscapeAll, Decimal, Identifier, Units, Boundary;
    ShapeShows(a, x);
    ShapeShows(b, y);
    if a.Index? {
      IndexSplit(a.index, x, b.index, y);
    } else if Identifier(a.key) {
      IdentifierSplit(a.key, x, b.key, y);
    } else {
      QuotedSplit(a.key, x, b.key, y);
    }
  }

  lemma StepsNonEmpty(path: seq<Step>)
    requires UnitPath(path)
    ensures Steps(path) == [] <==> path == []
  {
    if path != [] { ShapeShows(path[0], Steps(path[1..])); }
  }

  lemma {:induction false} StepsInjective(p: seq<Step>, q: seq<Step>)
    requires UnitPath(p) && UnitPath(q) && Steps(p) == Steps(q)
    ensures p == q
  {
    hide RenderStep;
    StepsNonEmpty(p);
    StepsNonEmpty(q);
    if p != [] {
      StepsBound(p[1..]);
      StepsBound(q[1..]);
      StepSplit(p[0], Steps(p[1..]), q[0], Steps(q[1..]));
      StepsInjective(p[1..], q[1..]);
      assert p == [p[0]] + p[1..] && q == [q[0]] + q[1..];
    }
  }

  // ---------------------------------------------------------------- UTF-16

  predicate HighSurrogate(c: nat) { 0xd800 <= c < 0xdc00 }

  predicate LowSurrogate(c: nat) { 0xdc00 <= c <= 0xdfff }

  function CharUnits(c: nat): (u: Text)
    requires CodePoint(c)
    ensures Units(u)
  {
    if c < 0x10000 then [c] else [0xd800 + (c - 0x10000) / 0x400, 0xdc00 + (c - 0x10000) % 0x400]
  }

  function Utf16(t: Text): (u: Text)
    requires Encodable(t)
    ensures Units(u) && Encodable(u)
  {
    if t == [] then [] else CharUnits(t[0]) + Utf16(t[1..])
  }

  function EncodedStep(step: Step): (s: Step)
    requires step.Field? ==> Encodable(step.key)
    ensures s.Field? ==> Encodable(s.key) && Units(s.key)
  {
    match step
    case Field(key) => Field(Utf16(key))
    case Index(i) => step
  }

  /** Every key as its UTF-16 units. */
  function Encoded(path: seq<Step>): (r: seq<Step>)
    requires Renderable(path)
    ensures |r| == |path| && Renderable(r) && UnitPath(r)
    ensures forall i | 0 <= i < |path| :: r[i] == EncodedStep(path[i])
  {
    if path == [] then [] else [EncodedStep(path[0])] + Encoded(path[1..])
  }

  lemma {:induction false} EscapeAllSplits(t: Text, u: Text)
    requires Encodable(t) && Encodable(u)
    ensures Encodable(t + u) && EscapeAll(t + u) == EscapeAll(t) + EscapeAll(u)
  {
    hide Escape;
    if t == [] {
      assert t + u == u;
    } else {
      assert (t + u)[0] == t[0] && (t + u)[1..] == t[1..] + u;
      EscapeAllSplits(t[1..], u);
    }
  }

  lemma Utf16Cons(t: Text)
    requires Encodable(t)
    ensures Utf16(t) == (if t == [] then [] else CharUnits(t[0]) + Utf16(t[1..]))
  {}

  lemma Prepended(a: Text, b: Text, c: Text)
    ensures a + (b + c) == (a + b) + c
  {}

  lemma {:induction false} Utf16Splits(t: Text, u: Text)
    requires Encodable(t) && Encodable(u)
    ensures Encodable(t + u) && Utf16(t + u) == Utf16(t) + Utf16(u)
  {
    hide Utf16, CharUnits;
    Utf16Cons(t);
    Utf16Cons(t + u);
    if t == [] {
      assert t + u == u;
    } else {
      assert (t + u)[0] == t[0] && (t + u)[1..] == t[1..] + u;
      Utf16Splits(t[1..], u);
      Prepended(CharUnits(t[0]), Utf16(t[1..]), Utf16(u));
    }
  }

  lemma CharEscapes(c: nat)
    requires CodePoint(c)
    ensures EscapeAll(CharUnits(c)) == Escape(c)
  {
    hide Unit;
    var u := CharUnits(c);
    if c < 0x10000 {
      assert u[1..] == [];
    } else {
      assert u[1..] == [u[1]] && u[1..][1..] == [];
      assert EscapeAll(u[1..]) == Escape(u[1]);
    }
  }

  /** A string is escaped unit by unit. */
  lemma {:induction false} EscapedByUnits(t: Text)
    requires Encodable(t)
    ensures EscapeAll(Utf16(t)) == EscapeAll(t)
  {
    hide Escape, CharUnits;
    if t != [] {
      CharEscapes(t[0]);
      EscapedByUnits(t[1..]);
      EscapeAllSplits(CharUnits(t[0]), Utf16(t[1..]));
    }
  }

  /** Units that are characters of the basic plane stand for themselves. */
  lemma {:induction false} UnitsStay(t: Text)
    requires Units(t)
    ensures Encodable(t) && Utf16(t) == t
  {
    if t != [] {
      UnitsStay(t[1..]);
      assert t == [t[0]] + t[1..];
    }
  }

  lemma IdentifierUnits(t: Text)
    requires Encodable(t)
    ensures Identifier(t) <==> Identifier(Utf16(t))
    ensures Identifier(t) ==> Utf16(t) == t
  {
    if Identifier(t) {
      UnitsStay(t);
    } else if Identifier(Utf16(t)) {
      WordUnits(t);
      UnitsStay(t);
    }
  }

  /** Only ASCII has ASCII units. */
  lemma {:induction false} WordUnits(t: Text)
    requires Encodable(t) && forall i | 0 <= i < |Utf16(t)| :: WordChar(Utf16(t)[i])
    ensures Units(t)
  {
    if t != [] {
      assert CharUnits(t[0])[0] == Utf16(t)[0];
      var u := Utf16(t);
      assert u[|CharUnits(t[0])|..] == Utf16(t[1..]);
      WordUnits(t[1..]);
    }
  }

  lemma {:induction false} EncodedRenders(path: seq<Step>)
    requires Renderable(path)
    ensures Steps(Encoded(path)) == Steps(path)
  {
    hide EscapeAll, Identifier, Utf16, Decimal;
    if path != [] {
      EncodedRenders(path[1..]);
      assert Encoded(path)[1..] == Encoded(path[1..]);
      if path[0].Field? {
        IdentifierUnits(path[0].key);
        EscapedByUnits(path[0].key);
      }
    }
  }

  // ---------------------------------------------------------------- what a path determines

  /** Exactly when two paths are rendered alike: they have the same indexes and the same
      keys in UTF-16, whatever dots, brackets, quotes, backslashes or non-ASCII
      characters the keys contain. */
  lemma RenderIff(p: seq<Step>, q: seq<Step>)
    requires Renderable(p) && Renderable(q)
    ensures Render(p) == Render(q) <==> Encoded(p) == Encoded(q)
  {
    hide Steps, Encoded;
    EncodedRenders(p);
    EncodedRenders(q);
    assert Render(p)[1..] == Steps(p) && Render(q)[1..] == Steps(q);
    if Render(p) == Render(q) { StepsInjective(Encoded(p), Encoded(q)); }
  }

  /** No high surrogate is directly followed by a low one. */
  predicate PairFree(t: Text) {
    forall i | 0 <= i < |t| - 1 :: !(HighSurrogate(t[i]) && LowSurrogate(t[i + 1]))
  }

  predicate PairFreePath(path: seq<Step>) {
    forall i | 0 <= i < |path| && path[i].Field? :: PairFree(path[i].key)
  }

  /** Characters outside the basic plane are two units, a surrogate pair. */
  lemma AstralUnits(c: nat)
    requires CodePoint(c) && c >= 0x10000
    ensures var u := CharUnits(c); |u| == 2 && HighSurrogate(u[0]) && LowSurrogate(u[1])
    ensures var u := CharUnits(c); c == 0x10000 + (u[0] - 0xd800) * 0x400 + (u[1] - 0xdc00)
  {
    assert c - 0x10000 == (c - 0x10000) / 0x400 * 0x400 + (c - 0x10000) % 0x400;
  }

  /** A text without such a pair is determined by its UTF-16 units. */
  lemma {:induction false} PairFreeDetermined(t: Text, u: Text)
    requires Encodable(t) && Encodable(u) && PairFree(t) && PairFree(u) && Utf16(t) == Utf16(u)
    ensures t == u
  {
    hide CharUnits, PairFree;
    if t != [] && u != [] {
      FirstCharacter(t, u);
      var w := Utf16(t);
      assert w[|CharUnits(t[0])|..] == Utf16(t[1..]) && w[|CharUnits(u[0])|..] == Utf16(u[1..]);
      TailPairFree(t);
      TailPairFree(u);
      PairFreeDetermined(t[1..], u[1..]);
      assert t == [t[0]] + t[1..] && u == [u[0]] + u[1..];
    } else {
      SomeUnit(t);
      SomeUnit(u);
    }
  }

  lemma SomeUnit(t: Text)
    requires Encodable(t)
    ensures t != [] ==> Utf16(t) != [] && Utf16(t)[0] == CharUnits(t[0])[0]
  {}

  lemma TailPairFree(t: Text)
    requires t != [] && PairFree(t)
    ensures PairFree(t[1..])
  {}

  lemma FirstCharacter(t: Text, u: Text)
    requires Encodable(t) && Encodable(u) && PairFree(t) && PairFree(u) && Utf16(t) == Utf16(u) && t != [] && u != []
    ensures t[0] == u[0]
  {
    hide Utf16, PairFree;
    SomeUnit(t);
    SomeUnit(u);
    if t[0] >= 0x10000 && u[0] >= 0x10000 {
      AstralUnits(t[0]);
      AstralUnits(u[0]);
      SecondUnit(t);
      SecondUnit(u);
    } else if t[0] >= 0x10000 {
      SplitPair(t, u);
    } else if u[0] >= 0x10000 {
      SplitPair(u, t);
    }
  }

  lemma SecondUnit(t: Text)
    requires Encodable(t) && t != [] && t[0] >= 0x10000
    ensures |Utf16(t)| >= 2 && Utf16(t)[0] == CharUnits(t[0])[0] && Utf16(t)[1] == CharUnits(t[0])[1]
  {}

  /** A character outside the basic plane cannot face two surrogates. */
  lemma SplitPair(t: Text, u: Text)
    requires Encodable(t) && Encodable(u) && t != [] && u != [] && t[0] >= 0x10000 && u[0] < 0x10000
    requires Utf16(t) == Utf16(u)
    ensures !PairFree(u)
  {
    hide Utf16;
    SecondUnit(t);
    AstralUnits(t[0]);
    BasicFirst(u);
    assert |u| > 1;
    SomeUnit(u[1..]);
    hide CharUnits;
    if u[1] >= 0x10000 { AstralUnits(u[1]); }
    BasicUnits(u[1]);
    assert HighSurrogate(u[0]) && LowSurrogate(u[1]);
  }

  lemma BasicUnits(c: nat)
    requires CodePoint(c)
    ensures c < 0x10000 ==> CharUnits(c) == [c]
  {}

  lemma BasicFirst(u: Text)
    requires Encodable(u) && u != [] && u[0] < 0x10000
    ensures Utf16(u) == [u[0]] + Utf16(u[1..]) && (|u| == 1 ==> Utf16(u) == [u[0]])
  {}

  /** Diagnostic paths without adjacent surrogate pairs are uniquely decodable. The keys
      of an accepted document have no surrogates at all. */
  lemma PathsDecodable(p: seq<Step>, q: seq<Step>)
    requires Renderable(p) && Renderable(q) && PairFreePath(p) && PairFreePath(q) && Render(p) == Render(q)
    ensures p == q
  {
    hide Render, Utf16, PairFree;
    RenderIff(p, q);
    assert |p| == |q|;
    forall i | 0 <= i < |p| ensures p[i] == q[i] {
      assert EncodedStep(p[i]) == EncodedStep(q[i]);
      if p[i].Field? { PairFreeDetermined(p[i].key, q[i].key); }
    }
  }

  /** A pair is rendered like the one character that it encodes. */
  function Merged(t: Text, i: nat): (r: Text)
    requires Encodable(t) && i + 1 < |t| && HighSurrogate(t[i]) && LowSurrogate(t[i + 1])
    ensures Encodable(r) && |r| == |t| - 1
  {
    t[..i] + [0x10000 + (t[i] - 0xd800) * 0x400 + (t[i + 1] - 0xdc00)] + t[i + 2..]
  }

  lemma PairUnits(h: nat, l: nat)
    requires HighSurrogate(h) && LowSurrogate(l)
    ensures var c := 0x10000 + (h - 0xd800) * 0x400 + (l - 0xdc00); CodePoint(c) && CharUnits(c) == [h, l]
  {
    var c := 0x10000 + (h - 0xd800) * 0x400 + (l - 0xdc00);
    assert (c - 0x10000) / 0x400 == h - 0xd800 && (c - 0x10000) % 0x400 == l - 0xdc00;
  }

  lemma TwoUnits(h: nat, l: nat)
    requires HighSurrogate(h) && LowSurrogate(l)
    ensures var c := 0x10000 + (h - 0xd800) * 0x400 + (l - 0xdc00);
            CodePoint(c) && Encodable([h, l]) && Encodable([c]) && Utf16([c]) == Utf16([h, l])
  {
    PairUnits(h, l);
    var c := 0x10000 + (h - 0xd800) * 0x400 + (l - 0xdc00);
    UnitsStay([h, l]);
    hide CharUnits;
    assert [c][1..] == [];
  }

  lemma MergedUnits(t: Text, i: nat)
    requires Encodable(t) && i + 1 < |t| && HighSurrogate(t[i]) && LowSurrogate(t[i + 1])
    ensures Utf16(Merged(t, i)) == Utf16(t)
  {
    hide Utf16;
    var c := 0x10000 + (t[i] - 0xd800) * 0x400 + (t[i + 1] - 0xdc00);
    TwoUnits(t[i], t[i + 1]);
    Utf16Splits(t[..i], [c]);
    Utf16Splits(t[..i] + [c], t[i + 2..]);
    Utf16Splits(t[..i], [t[i], t[i + 1]]);
    Utf16Splits(t[..i] + [t[i], t[i + 1]], t[i + 2..]);
    assert t == t[..i] + [t[i], t[i + 1]] + t[i + 2..];
  }

  /** Every character is a single unit and no two of them make a pair. */
  predicate SingleUnits(path: seq<Step>) { UnitPath(path) && PairFreePath(path) }

  predicate OnlyPath(p: seq<Step>, q: seq<Step>)
    requires Renderable(p)
  {
    Renderable(q) && Render(q) == Render(p) ==> q == p
  }

  lemma {:induction false} AstralHasPair(t: Text)
    requires Encodable(t) && !Units(t)
    ensures !PairFree(Utf16(t))
  {
    if t[0] >= 0x10000 {
      AstralUnits(t[0]);
      SecondUnit(t);
      assert HighSurrogate(Utf16(t)[0]) && LowSurrogate(Utf16(t)[1]);
    } else {
      AstralHasPair(t[1..]);
      var i :| 0 <= i < |Utf16(t[1..])| - 1 && HighSurrogate(Utf16(t[1..])[i]) && LowSurrogate(Utf16(t[1..])[i + 1]);
      BasicFirst(t);
      assert HighSurrogate(Utf16(t)[i + 1]) && LowSurrogate(Utf16(t)[i + 2]);
    }
  }

  lemma SingleIsOnly(p: seq<Step>, q: seq<Step>)
    requires SingleUnits(p) && Renderable(p) && Renderable(q) && Render(q) == Render(p)
    ensures q == p
  {
    hide Render, Utf16, PairFree, Units;
    RenderIff(p, q);
    assert |p| == |q|;
    forall i | 0 <= i < |p| ensures p[i] == q[i] {
      assert EncodedStep(p[i]) == EncodedStep(q[i]);
      if p[i].Field? {
        UnitsStay(p[i].key);
        if !Units(q[i].key) { AstralHasPair(q[i].key); }
        UnitsStay(q[i].key);
      }
    }
  }

  lemma Replaced(p: seq<Step>, i: nat, key: Text) returns (q: seq<Step>)
    requires Renderable(p) && i < |p| && p[i].Field?
    requires Encodable(key) && key != p[i].key && Utf16(key) == Utf16(p[i].key)
    ensures q != p && Renderable(q) && Render(q) == Render(p)
  {
    hide Render, Utf16;
    q := p[i := Field(key)];
    assert q[i] != p[i];
    assert Encoded(q) == Encoded(p);
    RenderIff(q, p);
  }

  /** Exactly when a rendering determines the path among all of them: every character is
      one unit and no high surrogate is directly followed by a low one. A lone surrogate
      does no harm. */
  lemma UniquelyDecodableIff(p: seq<Step>)
    requires Renderable(p)
    ensures (forall q :: OnlyPath(p, q)) <==> SingleUnits(p)
  {
    hide Render, Utf16, Merged, PairFree, Units;
    if SingleUnits(p) {
      forall q ensures OnlyPath(p, q) {
        if Renderable(q) && Render(q) == Render(p) { SingleIsOnly(p, q); }
      }
    } else if !UnitPath(p) {
      var i :| 0 <= i < |p| && p[i].Field? && !Units(p[i].key);
      UnitsStay(Utf16(p[i].key));
      var q := Replaced(p, i, Utf16(p[i].key));
      assert !OnlyPath(p, q);
    } else {
      var i :| 0 <= i < |p| && p[i].Field? && !PairFree(p[i].key);
      var k := PairAt(p[i].key);
      MergedUnits(p[i].key, k);
      assert |Merged(p[i].key, k)| != |p[i].key|;
      var q := Replaced(p, i, Merged(p[i].key, k));
      assert !OnlyPath(p, q);
    }
  }

  lemma PairAt(t: Text) returns (k: nat)
    requires !PairFree(t)
    ensures k + 1 < |t| && HighSurrogate(t[k]) && LowSurrogate(t[k + 1])
  {
    k :| 0 <= k < |t| - 1 && HighSurrogate(t[k]) && LowSurrogate(t[k + 1]);
  }

  /** For example a pair and the character that it encodes. */
  lemma SurrogatePairsCollide()
    ensures var p, q := [Field([0xd83d, 0xde00])], [Field([0x1f600])];
            Renderable(p) && Renderable(q) && p != q && Render(p) == Render(q)
  {
    hide Render, Utf16;
    var p, q := [Field([0xd83d, 0xde00])], [Field([0x1f600])];
    MergedUnits([0xd83d, 0xde00], 0);
    assert Merged([0xd83d, 0xde00], 0) == [0x1f600];
    assert p[0] != q[0] by { assert |[0xd83d, 0xde00]| != |[0x1f600]|; }
    assert Encoded(p) == Encoded(q);
    RenderIff(p, q);
  }
}
