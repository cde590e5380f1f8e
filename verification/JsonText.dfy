/**
 JSON text (RFC 8259): the strict reader behind `json.loads` with a duplicate-rejecting pairs hook,
 and the canonical printer `json.dumps(..., sort_keys=True, separators=(",", ":"))`.
 Between text and value stands a syntax tree whose objects still list their members in order.
 */
module JsonText {
  import opened Options
  import opened Texts
  import opened Json

  datatype Tree =
    | Leaf(value: Value)
    | Items(items: seq<Tree>)
    | Pairs(pairs: seq<Pair>)

  datatype Pair = Pair(name: Text, tree: Tree)

  const NULL: Text := [0x6E, 0x75, 0x6C, 0x6C]
  const TRUE: Text := [0x74, 0x72, 0x75, 0x65]
  const FALSE: Text := [0x66, 0x61, 0x6C, 0x73, 0x65]
  const QUOTE: CodePoint := 0x22
  const BACKSLASH: CodePoint := 0x5C
  const COMMA: CodePoint := 0x2C
  const COLON: CodePoint := 0x3A
  const MINUS: CodePoint := 0x2D
  const DOT: CodePoint := 0x2E
  const OPEN_ARRAY: CodePoint := 0x5B
  const CLOSE_ARRAY: CodePoint := 0x5D
  const OPEN_OBJECT: CodePoint := 0x7B
  const CLOSE_OBJECT: CodePoint := 0x7D

  // ---------------------------------------------------------------- strings

  predicate High(c: CodePoint) {
    0xD800 <= c <= 0xDBFF
  }

  predicate Low(c: CodePoint) {
    0xDC00 <= c <= 0xDFFF
  }

  /** The character a surrogate pair stands for. */
  function Astral(high: CodePoint, low: CodePoint): (c: CodePoint)
    requires High(high) && Low(low)
    ensures 0x1_0000 <= c
  {
    0x1_0000 + (high - 0xD800) * 0x400 + (low - 0xDC00)
  }

  /** No high surrogate directly followed by a low one. */
  predicate Unsplit(s: Text) {
    forall i :: 0 <= i < |s| - 1 ==> !(High(s[i]) && Low(s[i + 1]))
  }

  /** Each high surrogate merged with the low one after it. */
  function Join(s: Text): (r: Text)
    ensures r == [] <==> s == []
    ensures |s| > 0 && !(|s| > 1 && High(s[0]) && Low(s[1])) ==> r[0] == s[0]
    ensures |s| > 1 && High(s[0]) && Low(s[1]) ==> r[0] >= 0x1_0000
  {
    if s == [] then []
    else if |s| > 1 && High(s[0]) && Low(s[1]) then [Astral(s[0], s[1])] + Join(s[2..])
    else [s[0]] + Join(s[1..])
  }

  function HexDigit(n: nat): (c: CodePoint)
    requires n < 16
    ensures c != QUOTE && c != BACKSLASH && c >= 0x20
  {
    if n < 10 then 0x30 + n else 0x61 + n - 10
  }

  function HexValue(c: CodePoint): Option<nat> {
    if 0x30 <= c <= 0x39 then Some(c - 0x30)
    else if 0x61 <= c <= 0x66 then Some(c - 0x61 + 10)
    else if 0x41 <= c <= 0x46 then Some(c - 0x41 + 10)
    else None
  }

  /** `\uXXXX` for one UTF-16 code unit. */
  function EscapeUnit(u: nat): (t: Text)
    requires u < 0x1_0000
    ensures |t| == 6
  {
    [BACKSLASH, 0x75, HexDigit(u / 0x1000), HexDigit(u / 0x100 % 16), HexDigit(u / 16 % 16), HexDigit(u % 16)]
  }

  /** The code unit written by the four digits at the front of `t`. */
  function Hex4(t: Text): (r: Option<CodePoint>)
    ensures r.Some? ==> |t| >= 4 && r.value < 0x1_0000
  {
    if |t| < 4 then None
    else
      var a := HexValue(t[0]);
      var b := HexValue(t[1]);
      var c := HexValue(t[2]);
      var d := HexValue(t[3]);
      if a.None? || b.None? || c.None? || d.None? then None
      else
        HexBound(t[0]); HexBound(t[1]); HexBound(t[2]); HexBound(t[3]);
        Some(a.value * 0x1000 + b.value * 0x100 + c.value * 16 + d.value)
  }

  lemma {:induction false} HexBound(c: CodePoint)
    ensures HexValue(c).Some? ==> HexValue(c).value < 16
  {
  }

  /** One character inside a printed string: ASCII only, short escapes where JSON has them. */
  function Escape(c: CodePoint): (t: Text)
    ensures t != [] && t[0] != QUOTE
  {
    if c == QUOTE || c == BACKSLASH then [BACKSLASH, c]
    else if c == 0x0A then [BACKSLASH, 0x6E]
    else if c == 0x0D then [BACKSLASH, 0x72]
    else if c == 0x09 then [BACKSLASH, 0x74]
    else if c == 0x0C then [BACKSLASH, 0x66]
    else if c == 0x08 then [BACKSLASH, 0x62]
    else if 0x20 <= c <= 0x7E then [c]
    else if c < 0x1_0000 then EscapeUnit(c)
    else EscapeUnit(0xD800 + (c - 0x1_0000) / 0x400) + EscapeUnit(0xDC00 + (c - 0x1_0000) % 0x400)
  }

  function EscapeAll(s: Text): Text {
    if s == [] then [] else Escape(s[0]) + EscapeAll(s[1..])
  }

  function PrintString(s: Text): Text {
    [QUOTE] + EscapeAll(s) + [QUOTE]
  }

  /** The character of a two-character escape. */
  function ShortEscape(c: CodePoint): Option<CodePoint> {
    if c == QUOTE || c == BACKSLASH || c == 0x2F then Some(c)
    else if c == 0x6E then Some(0x0A)
    else if c == 0x72 then Some(0x0D)
    else if c == 0x74 then Some(0x09)
    else if c == 0x66 then Some(0x0C)
    else if c == 0x62 then Some(0x08)
    else None
  }

  type Chars = Option<(Text, Text)>

  function Prepend(c: CodePoint, r: Chars): Chars {
    match r
    case None => None
    case Some((s, rest)) => Some(([c] + s, rest))
  }

  /** The characters up to the closing quote, and the text after it. */
  function ReadChars(t: Text): (r: Chars)
    ensures r.Some? ==> |r.value.1| < |t|
    decreases |t|, 1
  {
    if t == [] then None
    else if t[0] == QUOTE then Some(([], t[1..]))
    else if t[0] == BACKSLASH then ReadEscape(t)
    else if t[0] < 0x20 then None
    else Prepend(t[0], ReadChars(t[1..]))
  }

  function ReadEscape(t: Text): (r: Chars)
    requires t != [] && t[0] == BACKSLASH
    ensures r.Some? ==> |r.value.1| < |t|
    decreases |t|, 0
  {
    if |t| < 2 then None
    else if t[1] != 0x75 then
      var c :- ShortEscape(t[1]);
      Prepend(c, ReadChars(t[2..]))
    else
      var u :- Hex4(t[2..]);
      ReadUnit(u, t[6..])
  }

  /** An escaped code unit and the characters after it; two escaped halves of a pair make one character. */
  function ReadUnit(u: CodePoint, tail: Text): (r: Chars)
    ensures r.Some? ==> |r.value.1| < |tail|
    decreases |tail|, 2
  {
    if High(u) && |tail| >= 2 && tail[0] == BACKSLASH && tail[1] == 0x75 then
      var v :- Hex4(tail[2..]);
      if Low(v) then Prepend(Astral(u, v), ReadChars(tail[6..])) else Prepend(u, ReadChars(tail))
    else Prepend(u, ReadChars(tail))
  }

  lemma {:induction false} HexReads(n: nat)
    requires n < 16
    ensures HexValue(HexDigit(n)) == Some(n)
  {
  }

  lemma {:induction false} Nibbles(u: nat)
    requires u < 0x1_0000
    ensures u / 0x1000 < 16
    ensures u == u / 0x1000 * 0x1000 + u / 0x100 % 16 * 0x100 + u / 16 % 16 * 16 + u % 16
  {
  }

  lemma {:induction false} UnitReads(u: nat, rest: Text)
    requires u < 0x1_0000
    ensures Hex4(EscapeUnit(u)[2..] + rest) == Some(u)
  {
    var a, b, c, d := u / 0x1000, u / 0x100 % 16, u / 16 % 16, u % 16;
    var t := EscapeUnit(u)[2..] + rest;
    Nibbles(u);
    assert t[0] == HexDigit(a) && t[1] == HexDigit(b) && t[2] == HexDigit(c) && t[3] == HexDigit(d);
    HexReads(a); HexReads(b); HexReads(c); HexReads(d);
  }

  /** Reading one `\uXXXX` escape, in terms of what follows it. */
  lemma {:induction false} UnitStep(u: nat, tail: Text)
    requires u < 0x1_0000
    ensures ReadChars(EscapeUnit(u) + tail) == ReadUnit(u, tail)
  {
    var t := EscapeUnit(u) + tail;
    UnitReads(u, tail);
    assert t[0] == BACKSLASH && t[1] == 0x75;
    hide HexDigit, HexValue, Hex4, ReadUnit;
    assert t[2..] == EscapeUnit(u)[2..] + tail && t[6..] == tail;
  }

  lemma {:induction false} PairStep(high: nat, low: nat, tail: Text)
    requires 0xD800 <= high <= 0xDBFF && 0xDC00 <= low <= 0xDFFF
    ensures ReadChars(EscapeUnit(high) + EscapeUnit(low) + tail) == Prepend(Astral(high, low), ReadChars(tail))
  {
    var second := EscapeUnit(low) + tail;
    assert EscapeUnit(high) + EscapeUnit(low) + tail == EscapeUnit(high) + second;
    assert second[2..] == EscapeUnit(low)[2..] + tail && second[6..] == tail;
    UnitReads(low, tail);
    UnitStep(high, second);
  }

  /** A character that is not a high surrogate reads back alone. */
  lemma {:induction false} CharStep(c: CodePoint, tail: Text)
    requires !High(c)
    ensures ReadChars(Escape(c) + tail) == Prepend(c, ReadChars(tail))
  {
    if c >= 0x1_0000 {
      var high, low := 0xD800 + (c - 0x1_0000) / 0x400, 0xDC00 + (c - 0x1_0000) % 0x400;
      assert Astral(high, low) == c;
      PairStep(high, low, tail);
    } else if |Escape(c)| == 6 {
      UnitStep(c, tail);
    } else {
      assert (Escape(c) + tail)[|Escape(c)|..] == tail;
    }
  }

  /** An escape that starts with `\u` and is not a low surrogate's starts with another unit. */
  lemma {:induction false} FirstUnit(d: CodePoint, tail: Text)
    requires !Low(d)
    ensures var next := Escape(d) + tail;
      |next| >= 2 && next[0] == BACKSLASH && next[1] == 0x75 ==> Hex4(next[2..]).Some? && !Low(Hex4(next[2..]).value)
  {
    hide Hex4, HexDigit;
    var next := Escape(d) + tail;
    assert next[0] == Escape(d)[0];
    if d >= 0x1_0000 {
      var high, low := 0xD800 + (d - 0x1_0000) / 0x400, 0xDC00 + (d - 0x1_0000) % 0x400;
      UnitReads(high, EscapeUnit(low) + tail);
      assert next[2..] == EscapeUnit(high)[2..] + (EscapeUnit(low) + tail);
    } else if |Escape(d)| == 6 {
      UnitReads(d, tail);
      assert next[2..] == EscapeUnit(d)[2..] + tail;
    } else if |Escape(d)| == 2 {
      assert next[1] == Escape(d)[1];
    }
  }

  /** A high surrogate reads back alone unless the next character is a low one. */
  lemma {:induction false} HighStep(c: CodePoint, d: CodePoint, tail: Text)
    requires High(c) && !Low(d)
    ensures ReadChars(Escape(c) + (Escape(d) + tail)) == Prepend(c, ReadChars(Escape(d) + tail))
  {
    UnitStep(c, Escape(d) + tail);
    FirstUnit(d, tail);
  }

  lemma {:induction false} SurrogateEscape(c: CodePoint)
    requires High(c) || Low(c)
    ensures Escape(c) == EscapeUnit(c)
  {
  }

  /** Reading back a printed string merges its split surrogate pairs and changes nothing else. */
  lemma {:induction false} StringReads(s: Text, rest: Text)
    ensures ReadChars(EscapeAll(s) + [QUOTE] + rest) == Some((Join(s), rest))
    decreases |s|
  {
    hide Escape, EscapeUnit, ReadEscape, Astral;
    if s == [] {
      assert (EscapeAll(s) + [QUOTE] + rest)[1..] == rest;
    } else {
      hide ReadChars;
      var c, tail := s[0], EscapeAll(s[1..]) + [QUOTE] + rest;
      assert EscapeAll(s) + [QUOTE] + rest == Escape(c) + tail;
      StringReads(s[1..], rest);
      if !High(c) {
        CharStep(c, tail);
      } else if |s| == 1 {
        SurrogateEscape(c);
        UnitStep(c, tail);
      } else {
        var d, after := s[1], EscapeAll(s[2..]) + [QUOTE] + rest;
        assert s[1..][1..] == s[2..];
        assert tail == Escape(d) + after;
        if Low(d) {
          StringReads(s[2..], rest);
          PairStep(c, d, after);
          SurrogateEscape(c);
          SurrogateEscape(d);
          assert Escape(c) + tail == EscapeUnit(c) + EscapeUnit(d) + after;
        } else {
          HighStep(c, d, after);
        }
      }
    }
  }

  lemma {:induction false} JoinUnsplit(s: Text)
    ensures Unsplit(Join(s))
    ensures Unsplit(s) <==> Join(s) == s
    ensures |Join(s)| <= |s|
    decreases |s|
  {
    if s == [] {
    } else if |s| > 1 && High(s[0]) && Low(s[1]) {
      JoinUnsplit(s[2..]);
    } else {
      JoinUnsplit(s[1..]);
      assert Unsplit(s) <==> Unsplit(s[1..]) by {
        if Unsplit(s[1..]) {
          forall i | 0 <= i < |s| - 1 ensures !(High(s[i]) && Low(s[i + 1])) {
            if i > 0 {
              assert s[1..][i - 1] == s[i];
            }
          }
        }
      }
      assert s == [s[0]] + s[1..];
    }
  }

  lemma {:induction false} AstralEscape(high: CodePoint, low: CodePoint)
    requires High(high) && Low(low)
    ensures Escape(Astral(high, low)) == Escape(high) + Escape(low)
  {
    var c := Astral(high, low);
    assert (c - 0x1_0000) / 0x400 == high - 0xD800 && (c - 0x1_0000) % 0x400 == low - 0xDC00;
  }

  /** The escapes of a merged pair are the escapes of its halves. */
  lemma {:induction false} JoinPrints(s: Text)
    ensures EscapeAll(Join(s)) == EscapeAll(s)
    decreases |s|
  {
    hide Escape, Astral, EscapeUnit;
    if s == [] {
    } else if |s| > 1 && High(s[0]) && Low(s[1]) {
      JoinPrints(s[2..]);
      assert s[1..][1..] == s[2..];
      AstralEscape(s[0], s[1]);
      assert EscapeAll(s) == Escape(s[0]) + (Escape(s[1]) + EscapeAll(s[2..]));
    } else {
      JoinPrints(s[1..]);
    }
  }

  /** Two strings print alike exactly when they differ only in how surrogate pairs are held. */
  lemma {:induction false} PrintStringInjective(s: Text, t: Text)
    ensures PrintString(s) == PrintString(t) <==> Join(s) == Join(t)
  {
    if PrintString(s) == PrintString(t) {
      StringReads(s, []);
      StringReads(t, []);
      assert EscapeAll(s) + [QUOTE] + [] == PrintString(s)[1..] == EscapeAll(t) + [QUOTE] + [];
    }
    JoinPrints(s);
    JoinPrints(t);
  }

  // ---------------------------------------------------------------- numbers

  predicate Digit(c: CodePoint) {
    0x30 <= c <= 0x39
  }

  /** Leading digits of `t`. */
  function Span(t: Text): (n: nat)
    ensures n <= |t|
  {
    if t != [] && Digit(t[0]) then 1 + Span(t[1..]) else 0
  }

  function SignSpan(t: Text): nat {
    if t != [] && t[0] == MINUS then 1 else 0
  }

  /** Length of the integer part after the sign: `0` or a digit string without leading zero; 0 when absent. */
  function WholeSpan(t: Text): (n: nat)
    ensures n <= |t|
  {
    if t != [] && t[0] == 0x30 then 1 else Span(t)
  }

  function FractionSpan(t: Text): (n: nat)
    ensures n <= |t|
  {
    if t != [] && t[0] == DOT && Span(t[1..]) > 0 then 1 + Span(t[1..]) else 0
  }

  function ExponentSpan(t: Text): (n: nat)
    ensures n <= |t|
  {
    if t != [] && (t[0] == 0x65 || t[0] == 0x45) then
      var sign := if |t| > 1 && (t[1] == 0x2B || t[1] == MINUS) then 1 else 0;
      var digits := Span(t[1 + sign..]);
      if digits > 0 then 1 + sign + digits else 0
    else 0
  }

  /** Length of the fraction and exponent at the front of `t`. */
  function TailSpan(t: Text): (n: nat)
    ensures n <= |t|
  {
    FractionSpan(t) + ExponentSpan(t[FractionSpan(t)..])
  }

  /** Where the sign and integer part at the front of `t` end; 0 when there is no number. */
  function WholeEnd(t: Text): (k: nat)
    ensures k <= |t|
    ensures k > 0 ==> SignSpan(t) < k
  {
    var whole := WholeSpan(t[SignSpan(t)..]);
    if whole == 0 then 0 else SignSpan(t) + whole
  }

  /** Where the whole number ends. */
  function NumberEnd(t: Text): (k: nat)
    ensures WholeEnd(t) <= k <= |t|
  {
    WholeEnd(t) + TailSpan(t[WholeEnd(t)..])
  }

  function DigitsValue(t: Text): nat {
    if t == [] then 0
    else DigitsValue(t[..|t| - 1]) * 10 + (if Digit(t[|t| - 1]) then t[|t| - 1] - 0x30 else 0)
  }

  function PrintNat(n: nat): (t: Text)
    ensures t != []
  {
    if n < 10 then [0x30 + n] else PrintNat(n / 10) + [0x30 + n % 10]
  }

  function PrintInt(n: int): Text {
    if n < 0 then [MINUS] + PrintNat(-n) else PrintNat(n)
  }

  /** The repository leaves float conversion to the runtime: a lexeme yields its canonical form and value. */
  type FloatScan = Text -> Option<(Text, real)>

  type Reading = Option<(Tree, Text)>

  function ReadNumber(scan: FloatScan, t: Text): (r: Reading)
    ensures r.Some? ==> |r.value.1| < |t|
  {
    var sign, k, end := SignSpan(t), WholeEnd(t), NumberEnd(t);
    if k == 0 then None
    else if k == end then
      var n := DigitsValue(t[sign..k]);
      Some((Leaf(Int(if sign == 1 then 0 - n else n)), t[k..]))
    else
      var f :- scan(t[..end]);
      Some((Leaf(Float(f.0, f.1)), t[end..]))
  }

  /** No character that could extend a number. */
  predicate Breaks(rest: Text) {
    rest == [] || !(Digit(rest[0]) || rest[0] == DOT || rest[0] == 0x65 || rest[0] == 0x45)
  }

  lemma {:induction false} SpanAppend(t: Text, rest: Text)
    requires rest == [] || !Digit(rest[0])
    ensures Span(t + rest) == Span(t)
  {
    if t == [] {
      assert t + rest == rest;
    } else {
      SpanAppend(t[1..], rest);
      assert (t + rest)[1..] == t[1..] + rest;
    }
  }

  /** A number that fills `t` ends where it did when text that breaks it off follows. */
  lemma {:induction false} NumberAppend(t: Text, rest: Text)
    requires Breaks(rest) && 0 < WholeEnd(t) && NumberEnd(t) == |t|
    ensures WholeEnd(t + rest) == WholeEnd(t) && NumberEnd(t + rest) == |t|
  {
    var sign, k, u := SignSpan(t), WholeEnd(t), t + rest;
    WholeAppend(t[sign..], rest);
    assert u[sign..] == t[sign..] + rest;
    assert WholeEnd(u) == k;
    TailAppend(t[k..], rest);
    assert u[k..] == t[k..] + rest;
  }

  lemma {:induction false} WholeAppend(a: Text, rest: Text)
    requires a != [] && Breaks(rest)
    ensures WholeSpan(a + rest) == WholeSpan(a)
  {
    SpanAppend(a, rest);
  }

  lemma {:induction false} TailAppend(a: Text, rest: Text)
    requires Breaks(rest) && TailSpan(a) == |a|
    ensures TailSpan(a + rest) == |a|
  {
    var f := FractionSpan(a);
    if a != [] {
      assert (a + rest)[1..] == a[1..] + rest;
      SpanAppend(a[1..], rest);
    }
    assert FractionSpan(a + rest) == f;
    assert (a + rest)[f..] == a[f..] + rest;
    ExponentAppend(a[f..], rest);
  }

  lemma {:induction false} ExponentAppend(b: Text, rest: Text)
    requires Breaks(rest) && ExponentSpan(b) == |b|
    ensures ExponentSpan(b + rest) == |b|
  {
    if b != [] {
      var sign := if |b| > 1 && (b[1] == 0x2B || b[1] == MINUS) then 1 else 0;
      assert |b| > 1;
      assert (b + rest)[1 + sign..] == b[1 + sign..] + rest;
      SpanAppend(b[1 + sign..], rest);
    }
  }

  /** A printed natural is its own integer part and reads back. */
  lemma {:induction false} NatReads(n: nat)
    ensures forall i :: 0 <= i < |PrintNat(n)| ==> Digit(PrintNat(n)[i])
    ensures |PrintNat(n)| > 1 ==> PrintNat(n)[0] != 0x30
    ensures DigitsValue(PrintNat(n)) == n
  {
    var t := PrintNat(n);
    if n < 10 {
      assert t[..0] == [];
    } else {
      NatReads(n / 10);
      assert t[..|t| - 1] == PrintNat(n / 10);
      assert n / 10 > 0 ==> PrintNat(n / 10)[0] != 0x30 by {
        if |PrintNat(n / 10)| == 1 {
          assert n / 10 < 10;
        }
      }
    }
  }

  lemma {:induction false} SpanAll(t: Text)
    requires forall i :: 0 <= i < |t| ==> Digit(t[i])
    ensures Span(t) == |t|
  {
    if t != [] {
      SpanAll(t[1..]);
    }
  }

  lemma {:induction false} IntReads(scan: FloatScan, n: int, rest: Text)
    requires Breaks(rest)
    ensures ReadNumber(scan, PrintInt(n) + rest) == Some((Leaf(Int(n)), rest))
    ensures Digit(PrintInt(n)[0]) || PrintInt(n)[0] == MINUS
  {
    var t, digits := PrintInt(n), PrintNat(if n < 0 then -n else n);
    NatReads(if n < 0 then -n else n);
    SpanAll(digits);
    var sign := SignSpan(t);
    assert t[sign..] == digits && sign + |digits| == |t|;
    assert t[|t|..] == [];
    NumberAppend(t, rest);
    assert (t + rest)[sign..|t|] == digits && (t + rest)[|t|..] == rest;
  }

  /** `v` is a float the runtime can hold: reading its printed form gives it back. */
  predicate FloatOk(scan: FloatScan, repr: Text, value: real) {
    && 0 < WholeEnd(repr) < NumberEnd(repr) == |repr|
    && scan(repr) == Some((repr, value))
  }

  lemma {:induction false} FloatReads(scan: FloatScan, repr: Text, value: real, rest: Text)
    requires Breaks(rest) && FloatOk(scan, repr, value)
    ensures ReadNumber(scan, repr + rest) == Some((Leaf(Float(repr, value)), rest))
    ensures Digit(repr[0]) || repr[0] == MINUS
  {
    NumberAppend(repr, rest);
    assert (repr + rest)[..|repr|] == repr && (repr + rest)[|repr|..] == rest;
  }

  // ---------------------------------------------------------------- documents

  function SkipSpace(t: Text): (r: Text)
    ensures |r| <= |t|
  {
    if t != [] && (t[0] == 0x20 || t[0] == 0x09 || t[0] == 0x0A || t[0] == 0x0D) then SkipSpace(t[1..]) else t
  }

  /** The literals; `NaN` and the infinities are refused by the constant hook, so they read as nothing. */
  function ReadLiteral(t: Text): (r: Reading)
    ensures r.Some? ==> |r.value.1| < |t|
  {
    if |t| >= 4 && t[..4] == NULL then Some((Leaf(Null), t[4..]))
    else if |t| >= 4 && t[..4] == TRUE then Some((Leaf(Bool(true)), t[4..]))
    else if |t| >= 5 && t[..5] == FALSE then Some((Leaf(Bool(false)), t[5..]))
    else None
  }

  /** A string, number or literal at the front of `t`. */
  function ReadScalar(scan: FloatScan, t: Text): (r: Reading)
    ensures r.Some? ==> |r.value.1| < |t|
  {
    if t == [] then None
    else if t[0] == QUOTE then
      var (s, rest) :- ReadChars(t[1..]);
      Some((Leaf(Str(s)), rest))
    else if Digit(t[0]) || t[0] == MINUS then ReadNumber(scan, t)
    else ReadLiteral(t)
  }

  /** Reads one scalar. */
  type Lexer = Text -> Reading

  ghost predicate Shrinks(lex: Lexer) {
    forall t :: lex(t).Some? ==> |lex(t).value.1| < |t|
  }

  function Scalars(scan: FloatScan): (lex: Lexer)
    ensures Shrinks(lex)
  {
    t => ReadScalar(scan, t)
  }

  /** One value at the front of `t` (`raw_decode`) and the text after it. */
  function ReadTree(lex: Lexer, t: Text): (r: Reading)
    requires Shrinks(lex)
    ensures r.Some? ==> |r.value.1| < |t|
    decreases |t|, 0
  {
    if t == [] then None
    else if t[0] == OPEN_ARRAY then
      var u := SkipSpace(t[1..]);
      if u != [] && u[0] == CLOSE_ARRAY then Some((Items([]), u[1..]))
      else
        var (items, rest) :- ReadItems(lex, u);
        Some((Items(items), rest))
    else if t[0] == OPEN_OBJECT then
      var u := SkipSpace(t[1..]);
      if u != [] && u[0] == CLOSE_OBJECT then Some((Pairs([]), u[1..]))
      else
        var (pairs, rest) :- ReadPairs(lex, u);
        Some((Pairs(pairs), rest))
    else lex(t)
  }

  /** Array members up to and including the closing bracket. */
  function ReadItems(lex: Lexer, t: Text): (r: Option<(seq<Tree>, Text)>)
    requires Shrinks(lex)
    ensures r.Some? ==> |r.value.1| < |t|
    decreases |t|, 1
  {
    var (item, rest) :- ReadTree(lex, t);
    var u := SkipSpace(rest);
    if u == [] then None
    else if u[0] == CLOSE_ARRAY then Some(([item], u[1..]))
    else if u[0] == COMMA then
      var (items, after) :- ReadItems(lex, SkipSpace(u[1..]));
      Some(([item] + items, after))
    else None
  }

  /** A quoted member name, the colon, and the blanks around it. */
  function ReadName(lex: Lexer, t: Text): (r: Option<(Text, Text)>)
    requires Shrinks(lex)
    ensures r.Some? ==> |r.value.1| < |t|
  {
    if t == [] || t[0] != QUOTE then None
    else
      var (key, afterKey) :- lex(t);
      var u := SkipSpace(afterKey);
      if key.Leaf? && key.value.Str? && u != [] && u[0] == COLON then Some((key.value.s, SkipSpace(u[1..])))
      else None
  }

  /** Object members up to and including the closing brace. */
  function ReadPairs(lex: Lexer, t: Text): (r: Option<(seq<Pair>, Text)>)
    requires Shrinks(lex)
    ensures r.Some? ==> |r.value.1| < |t|
    decreases |t|, 1
  {
    var (key, afterName) :- ReadName(lex, t);
    var (item, rest) :- ReadTree(lex, afterName);
    var w := SkipSpace(rest);
    if w == [] then None
    else if w[0] == CLOSE_OBJECT then Some(([Pair(key, item)], w[1..]))
    else if w[0] == COMMA then
      var (pairs, after) :- ReadPairs(lex, SkipSpace(w[1..]));
      Some(([Pair(key, item)] + pairs, after))
    else None
  }

  function PrintLeaf(v: Value): Text {
    match v
    case Null => NULL
    case Bool(b) => if b then TRUE else FALSE
    case Int(n) => PrintInt(n)
    case Float(repr, _) => repr
    case Str(s) => PrintString(s)
    case _ => []
  }

  function PrintTree(t: Tree): Text
    decreases t, 0
  {
    match t
    case Leaf(v) => PrintLeaf(v)
    case Items(items) => [OPEN_ARRAY] + PrintItems(items) + [CLOSE_ARRAY]
    case Pairs(pairs) => [OPEN_OBJECT] + PrintPairs(pairs) + [CLOSE_OBJECT]
  }

  function PrintItems(items: seq<Tree>): Text {
    if items == [] then []
    else if |items| == 1 then PrintTree(items[0])
    else PrintTree(items[0]) + [COMMA] + PrintItems(items[1..])
  }

  function PrintPair(pair: Pair): Text {
    PrintString(pair.name) + [COLON] + PrintTree(pair.tree)
  }

  function PrintPairs(pairs: seq<Pair>): Text {
    if pairs == [] then []
    else if |pairs| == 1 then PrintPair(pairs[0])
    else PrintPair(pairs[0]) + [COMMA] + PrintPairs(pairs[1..])
  }

  /** A tree whose leaves are scalars and whose floats the runtime can hold. */
  predicate Printable(scan: FloatScan, t: Tree) {
    match t
    case Leaf(v) => !v.Arr? && !v.Obj? && (v.Float? ==> FloatOk(scan, v.repr, v.value))
    case Items(items) => forall i :: 0 <= i < |items| ==> Printable(scan, items[i])
    case Pairs(pairs) => forall i :: 0 <= i < |pairs| ==> Printable(scan, pairs[i].tree)
  }

  /** The tree with every string and member name merged as `Join` does. */
  function JoinTree(t: Tree): Tree {
    match t
    case Leaf(v) => Leaf(if v.Str? then Str(Join(v.s)) else v)
    case Items(items) => Items(JoinItems(items))
    case Pairs(pairs) => Pairs(JoinPairs(pairs))
  }

  function JoinItems(items: seq<Tree>): seq<Tree> {
    if items == [] then [] else [JoinTree(items[0])] + JoinItems(items[1..])
  }

  function JoinPair(pair: Pair): Pair {
    Pair(Join(pair.name), JoinTree(pair.tree))
  }

  function JoinPairs(pairs: seq<Pair>): seq<Pair> {
    if pairs == [] then [] else [JoinPair(pairs[0])] + JoinPairs(pairs[1..])
  }

  /** The first character tells the readers apart, and is never a blank or a closing bracket. */
  lemma {:induction false} FirstCharacter(scan: FloatScan, t: Tree)
    requires Printable(scan, t)
    ensures PrintTree(t) != []
    ensures var c := PrintTree(t)[0]; c > 0x20 && c != CLOSE_ARRAY && c != CLOSE_OBJECT
  {
    if t.Leaf? && t.value.Int? {
      IntReads(scan, t.value.n, []);
    }
  }

  /** `lex` reads every printable scalar back, whatever breaks it off. */
  ghost predicate Faithful(scan: FloatScan, lex: Lexer) {
    forall v, rest :: Printable(scan, Leaf(v)) && Breaks(rest) ==>
      lex(PrintLeaf(v) + rest) == Some((JoinTree(Leaf(v)), rest))
  }

  lemma {:induction false} ScalarReads(scan: FloatScan, v: Value, rest: Text)
    requires Printable(scan, Leaf(v)) && Breaks(rest)
    ensures ReadScalar(scan, PrintLeaf(v) + rest) == Some((JoinTree(Leaf(v)), rest))
  {
    match v
    case Int(n) => IntReads(scan, n, rest);
    case Float(repr, x) => FloatReads(scan, repr, x, rest);
    case Str(s) => QuotedReads(scan, s, rest);
    case Null => LiteralReads(scan, v, rest);
    case Bool(b) => LiteralReads(scan, v, rest);
  }

  lemma {:induction false} QuotedReads(scan: FloatScan, s: Text, rest: Text)
    ensures ReadScalar(scan, PrintString(s) + rest) == Some((Leaf(Str(Join(s))), rest))
  {
    StringReads(s, rest);
    assert (PrintString(s) + rest)[1..] == EscapeAll(s) + [QUOTE] + rest;
  }

  lemma {:induction false} LiteralReads(scan: FloatScan, v: Value, rest: Text)
    requires v.Null? || v.Bool?
    ensures ReadScalar(scan, PrintLeaf(v) + rest) == Some((Leaf(v), rest))
  {
  }

  lemma {:induction false} LeafStart(scan: FloatScan, v: Value)
    requires Printable(scan, Leaf(v))
    ensures PrintLeaf(v) != [] && PrintLeaf(v)[0] != OPEN_ARRAY && PrintLeaf(v)[0] != OPEN_OBJECT
  {
    match v
    case Int(n) => IntReads(scan, n, []);
    case Float(repr, x) => FloatReads(scan, repr, x, []);
    case _ =>
  }

  lemma {:induction false} ScalarsFaithful(scan: FloatScan)
    ensures Faithful(scan, Scalars(scan))
  {
    forall v, rest | Printable(scan, Leaf(v)) && Breaks(rest)
      ensures Scalars(scan)(PrintLeaf(v) + rest) == Some((JoinTree(Leaf(v)), rest))
    {
      ScalarReads(scan, v, rest);
    }
  }

  /** Reading printed text gives the tree back, up to merged surrogate pairs, and leaves what follows. */
  lemma {:induction false} TreeReads(scan: FloatScan, lex: Lexer, t: Tree, rest: Text)
    requires Shrinks(lex) && Faithful(scan, lex)
    requires Printable(scan, t) && Breaks(rest)
    ensures ReadTree(lex, PrintTree(t) + rest) == Some((JoinTree(t), rest))
    decreases t, 0
  {
    match t
    case Leaf(v) =>
      LeafStart(scan, v);
      assert Printable(scan, Leaf(v)) && PrintTree(t) == PrintLeaf(v);
      assert lex(PrintLeaf(v) + rest) == Some((JoinTree(Leaf(v)), rest));
    case Items(items) =>
      if items != [] {
        ItemsStart(scan, items, rest);
        ItemsRead(scan, lex, items, rest);
      }
      ArrayReads(lex, items, rest);
    case Pairs(pairs) =>
      if pairs != [] {
        PairsStart(pairs, rest);
        PairsRead(scan, lex, pairs, rest);
      }
      ObjectReads(lex, pairs, rest);
  }

  /** An array, once its members are known to read. */
  lemma {:induction false} ArrayReads(lex: Lexer, items: seq<Tree>, rest: Text)
    requires Shrinks(lex)
    requires var body := PrintItems(items) + [CLOSE_ARRAY] + rest;
      items != [] ==>
      && SkipSpace(body) == body && body != [] && body[0] != CLOSE_ARRAY
      && ReadItems(lex, body) == Some((JoinItems(items), rest))
    ensures ReadTree(lex, PrintTree(Items(items)) + rest) == Some((JoinTree(Items(items)), rest))
  {
    hide ReadItems, JoinItems;
    var body := PrintItems(items) + [CLOSE_ARRAY] + rest;
    assert (PrintTree(Items(items)) + rest)[1..] == body;
    if items == [] {
      assert body[1..] == rest;
      NoItems();
    }
  }

  lemma {:induction false} NoItems()
    ensures JoinItems([]) == [] && JoinPairs([]) == []
  {
  }

  /** An object, once its members are known to read. */
  lemma {:induction false} ObjectReads(lex: Lexer, pairs: seq<Pair>, rest: Text)
    requires Shrinks(lex)
    requires var body := PrintPairs(pairs) + [CLOSE_OBJECT] + rest;
      pairs != [] ==>
      && SkipSpace(body) == body && body != [] && body[0] == QUOTE
      && ReadPairs(lex, body) == Some((JoinPairs(pairs), rest))
    ensures ReadTree(lex, PrintTree(Pairs(pairs)) + rest) == Some((JoinTree(Pairs(pairs)), rest))
  {
    hide ReadPairs, JoinPairs;
    var body := PrintPairs(pairs) + [CLOSE_OBJECT] + rest;
    assert (PrintTree(Pairs(pairs)) + rest)[1..] == body;
    if pairs == [] {
      assert body[1..] == rest;
      NoItems();
    }
  }

  lemma {:induction false} ItemsRead(scan: FloatScan, lex: Lexer, items: seq<Tree>, rest: Text)
    requires Shrinks(lex) && Faithful(scan, lex)
    requires items != [] && forall i :: 0 <= i < |items| ==> Printable(scan, items[i])
    ensures ReadItems(lex, PrintItems(items) + [CLOSE_ARRAY] + rest) == Some((JoinItems(items), rest))
    decreases items
  {
    hide Printable, JoinTree, PrintTree, ReadTree, Faithful;
    var u := PrintItems(items) + [CLOSE_ARRAY] + rest;
    if |items| == 1 {
      var after := [CLOSE_ARRAY] + rest;
      assert u == PrintTree(items[0]) + after && after[1..] == rest;
      TreeReads(scan, lex, items[0], after);
      assert JoinItems(items) == [JoinTree(items[0])];
    } else {
      var more := PrintItems(items[1..]) + [CLOSE_ARRAY] + rest;
      var after := [COMMA] + more;
      assert u == PrintTree(items[0]) + after && after[1..] == more;
      TreeReads(scan, lex, items[0], after);
      ItemsStart(scan, items[1..], rest);
      ItemsRead(scan, lex, items[1..], rest);
    }
  }

  lemma {:induction false} ItemsStart(scan: FloatScan, items: seq<Tree>, rest: Text)
    requires items != [] && Printable(scan, items[0])
    ensures var u := PrintItems(items) + [CLOSE_ARRAY] + rest;
      SkipSpace(u) == u && u != [] && u[0] != CLOSE_ARRAY
  {
    FirstCharacter(scan, items[0]);
    assert PrintItems(items)[0] == PrintTree(items[0])[0];
  }

  lemma {:induction false} PairsStart(pairs: seq<Pair>, rest: Text)
    requires pairs != []
    ensures var u := PrintPairs(pairs) + [CLOSE_OBJECT] + rest;
      SkipSpace(u) == u && u != [] && u[0] == QUOTE
  {
  }

  lemma {:induction false} NameReads(scan: FloatScan, lex: Lexer, pair: Pair, rest: Text)
    requires Shrinks(lex) && Faithful(scan, lex) && Printable(scan, pair.tree)
    ensures ReadName(lex, PrintPair(pair) + rest) == Some((Join(pair.name), PrintTree(pair.tree) + rest))
  {
    var tail := PrintTree(pair.tree) + rest;
    var u, afterKey := PrintPair(pair) + rest, [COLON] + tail;
    var name := Str(pair.name);
    assert u == PrintLeaf(name) + afterKey && u[0] == QUOTE;
    assert Printable(scan, Leaf(name)) && Breaks(afterKey);
    assert lex(PrintLeaf(name) + afterKey) == Some((JoinTree(Leaf(name)), afterKey));
    FirstCharacter(scan, pair.tree);
    assert tail[0] == PrintTree(pair.tree)[0];
    assert afterKey[1..] == tail && SkipSpace(tail) == tail;
  }

  /** One member of an object whose name, value and follower are known to read. */
  lemma {:induction false} PairsStep(
    lex: Lexer, u: Text, name: Text, mid: Text, tree: Tree, more: Text, pairs: seq<Pair>, rest: Text)
    requires Shrinks(lex)
    requires ReadName(lex, u) == Some((name, mid)) && ReadTree(lex, mid) == Some((tree, [COMMA] + more))
    requires SkipSpace(more) == more && ReadPairs(lex, more) == Some((pairs, rest))
    ensures ReadPairs(lex, u) == Some(([Pair(name, tree)] + pairs, rest))
  {
  }

  lemma {:induction false} PairsLast(lex: Lexer, u: Text, name: Text, mid: Text, tree: Tree, rest: Text)
    requires Shrinks(lex)
    requires ReadName(lex, u) == Some((name, mid)) && ReadTree(lex, mid) == Some((tree, [CLOSE_OBJECT] + rest))
    ensures ReadPairs(lex, u) == Some(([Pair(name, tree)], rest))
  {
  }

  lemma {:induction false} PairsRead(scan: FloatScan, lex: Lexer, pairs: seq<Pair>, rest: Text)
    requires Shrinks(lex) && Faithful(scan, lex)
    requires pairs != [] && forall i :: 0 <= i < |pairs| ==> Printable(scan, pairs[i].tree)
    ensures ReadPairs(lex, PrintPairs(pairs) + [CLOSE_OBJECT] + rest) == Some((JoinPairs(pairs), rest))
    decreases pairs
  {
    var u, head := PrintPairs(pairs) + [CLOSE_OBJECT] + rest, pairs[0];
    var more := PrintPairs(pairs[1..]) + [CLOSE_OBJECT] + rest;
    var after := if |pairs| == 1 then [CLOSE_OBJECT] + rest else [COMMA] + more;
    assert u == PrintPair(head) + after;
    NameReads(scan, lex, head, after);
    TreeReads(scan, lex, head.tree, after);
    if |pairs| == 1 {
      PairsLast(lex, u, Join(head.name), PrintTree(head.tree) + after, JoinTree(head.tree), rest);
      assert JoinPairs(pairs) == [JoinPair(head)];
    } else {
      PairsStart(pairs[1..], rest);
      PairsRead(scan, lex, pairs[1..], rest);
      PairsStep(
        lex, u, Join(head.name), PrintTree(head.tree) + after, JoinTree(head.tree), more, JoinPairs(pairs[1..]), rest);
    }
  }
}
