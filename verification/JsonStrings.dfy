/** The rendered keys of DiagnosticPaths as JSON: a reader of JSON strings takes them
    back, and the dotted form is for identifiers only. */
module JsonStrings {
  import opened Prelude
  import opened DiagnosticPaths

  // ---------------------------------------------------------------- a reader

  /** Section 7 of RFC 8259: the character of an escape of two, as its code. */
  function Escaped(c: nat): int {
    match c
    case 0x22 => 0x22
    case 0x5c => 0x5c
    case 0x2f => 0x2f
    case 0x62 => 8
    case 0x66 => 12
    case 0x6e => 10
    case 0x72 => 13
    case 0x74 => 9
    case _ => -1
  }

  const HEX := "0123456789abcdef"

  function HexValue(c: nat): (v: int)
    ensures -1 <= v < 16
  {
    if 0x30 <= c <= 0x39 then -0x30 + c else if 0x61 <= c <= 0x66 then 10 - 0x61 + c else -1
  }

  /** The four digits of a long escape. */
  function HexUnit(s: Text): int
    requires |s| >= 6
  {
    var (a, b, c, d) := (HexValue(s[2]), HexValue(s[3]), HexValue(s[4]), HexValue(s[5]));
    if a < 0 || b < 0 || c < 0 || d < 0 then -1 else ((a * 16 + b) * 16 + c) * 16 + d
  }

  /** What a body without its quotes stands for, in UTF-16 units, if it is one. */
  datatype Reading = NoString | Reads(units: Text)

  function Before(c: nat, rest: Reading): Reading {
    match rest
    case NoString => NoString
    case Reads(units) => Reads([c] + units)
  }

  function Read(s: Text): Reading {
    if s == [] then Reads([])
    else if s[0] == 0x22 || s[0] < 0x20 then NoString
    else if s[0] != 0x5c then Before(s[0], Read(s[1..]))
    else if |s| >= 6 && s[1] == 0x75 then
      if HexUnit(s) < 0 then NoString else Before(HexUnit(s), Read(s[6..]))
    else if |s| >= 2 && Escaped(s[1]) >= 0 then Before(Escaped(s[1]), Read(s[2..]))
    else NoString
  }

  lemma DigitReads(n: nat)
    requires n < 16
    ensures HexValue(HexDigit(n)) == n && HEX[n] as nat == HexDigit(n)
  {}

  lemma DigitsRead(n: nat)
    requires n < 0x10000
    ensures HexUnit(Unit(n)) == n
  {
    Nibbles(n);
    DigitReads(n / 0x1000);
    DigitReads(n / 0x100 % 16);
    DigitReads(n / 0x10 % 16);
    DigitReads(n % 16);
    hide HexDigit, HexValue;
  }

  lemma UnitReads(n: nat, s: Text)
    requires n < 0x10000
    ensures Read(Unit(n) + s) == Before(n, Read(s))
  {
    DigitsRead(n);
    var u, t := Unit(n), Unit(n) + s;
    assert t[6..] == s;
    assert t[0] == u[0] && t[1] == u[1] && t[2] == u[2] && t[3] == u[3] && t[4] == u[4] && t[5] == u[5];
    hide Unit, HexValue;
  }

  lemma EscapeReads(c: nat, s: Text)
    requires c < 0x10000
    ensures Read(Escape(c) + s) == Before(c, Read(s))
  {
    hide Unit;
    if Long(c) {
      UnitReads(c, s);
    } else {
      var t := Escape(c) + s;
      assert t[|Escape(c)|..] == s;
    }
  }

  lemma {:induction false} UnitsRead(t: Text)
    requires Units(t)
    ensures Encodable(t) && Read(EscapeAll(t)) == Reads(t)
  {
    hide Escape;
    if t != [] {
      UnitsRead(t[1..]);
      EscapeReads(t[0], EscapeAll(t[1..]));
      assert t == [t[0]] + t[1..];
    }
  }

  /** A key in brackets is a JSON string that reads back as the key. */
  lemma KeysReadBack(key: Text)
    requires Encodable(key)
    ensures Read(EscapeAll(key)) == Reads(Utf16(key))
  {
    EscapedByUnits(key);
    UnitsRead(Utf16(key));
  }

  // ---------------------------------------------------------------- indexes

  function Value(d: Text): int {
    if d == [] then 0 else Value(d[..|d| - 1]) * 10 + (d[|d| - 1] as int - 0x30)
  }

  /** An index is written in decimal without leading zeros. */
  lemma {:induction false} IndexReadsBack(n: nat)
    ensures Value(Decimal(n)) == n
    ensures Decimal(n)[0] == 0x30 ==> n == 0 && |Decimal(n)| == 1
  {
    if n >= 10 {
      IndexReadsBack(n / 10);
      assert Decimal(n)[..|Decimal(n)| - 1] == Decimal(n / 10);
      assert Decimal(n)[0] == Decimal(n / 10)[0];
    } else {
      assert Decimal(n)[..0] == [];
    }
  }

  // ---------------------------------------------------------------- which form

  predicate In(c: nat, alphabet: string) { exists i | 0 <= i < |alphabet| :: alphabet[i] as nat == c }

  /** An ASCII letter or an underscore. */
  predicate WordStart(c: nat) { In(c, UPPER) || In(c, LOWER) || c == '_' as nat }

  lemma UpperIs(c: nat)
    ensures In(c, UPPER) <==> 0x41 <= c <= 0x5a
  {
    if 0x41 <= c <= 0x5a { assert UPPER[c - 0x41] as nat == c; }
  }

  lemma LowerIs(c: nat)
    ensures In(c, LOWER) <==> 0x61 <= c <= 0x7a
  {
    if 0x61 <= c <= 0x7a { assert LOWER[c - 0x61] as nat == c; }
  }

  lemma LetterIs(c: nat)
    ensures Letter(c) <==> WordStart(c)
  {
    hide In, UPPER, LOWER;
    UpperIs(c);
    LowerIs(c);
  }

  lemma DigitIs(c: nat)
    ensures Digit(c) <==> In(c, DIGITS)
  {
    if Digit(c) { assert DIGITS[c - 0x30] as nat == c; }
  }

  /** A dot stands before exactly the keys of ASCII letters, digits and underscores that
      do not begin with a digit; all others are quoted. */
  lemma DottedIff(key: Text)
    requires Encodable(key)
    ensures RenderStep(Field(key)) ==
      if key != [] && !In(key[0], DIGITS) && forall i | 0 <= i < |key| :: WordStart(key[i]) || In(key[i], DIGITS)
      then [0x2e] + key
      else [0x5b, 0x22] + EscapeAll(key) + [0x22, 0x5d]
  {
    hide In, WordStart, EscapeAll, Letter, Digit;
    forall i | 0 <= i < |key|
      ensures Letter(key[i]) <==> WordStart(key[i])
      ensures Digit(key[i]) <==> In(key[i], DIGITS)
      ensures !(Letter(key[i]) && Digit(key[i]))
    {
      LetterIs(key[i]);
      DigitIs(key[i]);
      OneKind(key[i]);
    }
  }

  lemma OneKind(c: nat)
    ensures !(Letter(c) && Digit(c))
  {}

  // ---------------------------------------------------------------- plain text

  predicate Printable(t: Text) { forall i | 0 <= i < |t| :: 0x20 <= t[i] <= 0x7e }

  lemma EscapePrints(c: nat)
    requires CodePoint(c)
    ensures Printable(Escape(c))
  {
    forall n: nat | n < 0x10000 ensures Printable(Unit(n)) { UnitPrints(n); }
    hide Unit;
  }

  lemma UnitPrints(n: nat)
    requires n < 0x10000
    ensures Printable(Unit(n))
  {}

  lemma {:induction false} EscapedPrints(t: Text)
    requires Encodable(t)
    ensures Printable(EscapeAll(t))
  {
    hide Escape;
    if t != [] {
      EscapePrints(t[0]);
      EscapedPrints(t[1..]);
    }
  }

  lemma {:induction false} StepsPrint(path: seq<Step>)
    requires Renderable(path)
    ensures Printable(Steps(path))
  {
    hide EscapeAll;
    if path != [] {
      if path[0].Field? { EscapedPrints(path[0].key); }
      StepsPrint(path[1..]);
    }
  }

  /** Whatever the keys contain, a path is printable ASCII. */
  lemma PathsPrint(path: seq<Step>)
    requires Renderable(path)
    ensures Printable(Render(path))
  {
    hide Steps;
    StepsPrint(path);
  }

  /** No shorter printable text stands for a UTF-16 unit than the one that is written. */
  lemma EscapesAreShortest(c: nat, s: Text)
    requires c < 0x10000 && Printable(s) && Read(s) == Reads([c])
    ensures |Escape(c)| <= |s|
  {
    hide Unit;
    if |s| < |Escape(c)| {
      OneUnit(s, c);
    }
  }

  /** The first character of such a text is the unit itself or begins an escape of it. */
  lemma OneUnit(s: Text, c: nat)
    requires Printable(s) && Read(s) == Reads([c]) && |s| < 6
    ensures (s[0] == c && 0x20 <= c <= 0x7e && c != 0x22 && c != 0x5c) || (|s| >= 2 && Escaped(s[1]) == c)
  {
    if s[0] != 0x5c {
      assert Read(s) == Before(s[0], Read(s[1..]));
    } else {
      assert Read(s) == Before(Escaped(s[1]), Read(s[2..]));
    }
  }
}
