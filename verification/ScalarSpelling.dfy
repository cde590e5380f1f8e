/**
 The spellings of strings and numbers that the reader takes, as sections 6 and 7 of RFC 8259 give them: which texts
 are string literals and numbers, and what they denote.
 */
module ScalarSpelling {
  import opened Options
  import opened Texts
  import opened Json
  import opened JsonText

  // ---------------------------------------------------------------- strings

  /** A character as it is, an escape of two characters, or one of a code unit by four digits. */
  datatype Piece = Plain(c: CodePoint) | Short(letter: CodePoint) | Unit(digits: Text)

  predicate IsHex(c: CodePoint) {
    ('0' as int <= c <= '9' as int) || ('a' as int <= c <= 'f' as int) || ('A' as int <= c <= 'F' as int)
  }

  predicate SoundPiece(p: Piece) {
    match p
    case Plain(c) => c >= 0x20 && c != '"' as int && c != '\\' as int
    case Short(l) => l in T("\"\\/bfnrt")
    case Unit(d) => |d| == 4 && forall i :: 0 <= i < 4 ==> IsHex(d[i])
  }

  predicate SoundPieces(ps: seq<Piece>) {
    forall i :: 0 <= i < |ps| ==> SoundPiece(ps[i])
  }

  function Spelling(p: Piece): Text {
    match p
    case Plain(c) => [c]
    case Short(l) => T("\\") + [l]
    case Unit(d) => T("\\u") + d
  }

  function SpellAll(ps: seq<Piece>): Text {
    if ps == [] then [] else Spelling(ps[0]) + SpellAll(ps[1..])
  }

  function HexOf(c: CodePoint): (n: int)
    ensures IsHex(c) ==> 0 <= n < 16
  {
    if c <= '9' as int then c - '0' as int
    else if c <= 'F' as int then c - 'A' as int + 10
    else c - 'a' as int + 10
  }

  /** The code unit or character a sound piece stands for. */
  function Code(p: Piece): CodePoint
    requires SoundPiece(p)
  {
    match p
    case Plain(c) => c
    case Short(l) =>
      if l == 'b' as int then 8 else if l == 'f' as int then 12 else if l == 'n' as int then 10
      else if l == 'r' as int then 13 else if l == 't' as int then 9 else l
    case Unit(d) => HexOf(d[0]) * 4096 + HexOf(d[1]) * 256 + HexOf(d[2]) * 16 + HexOf(d[3])
  }

  /** The two pieces are the escaped halves of a character beyond the basic plane. */
  predicate Halves(p: Piece, q: Piece)
    requires SoundPiece(p) && SoundPiece(q)
  {
    p.Unit? && q.Unit? && 0xD800 <= Code(p) < 0xDC00 && 0xDC00 <= Code(q) < 0xE000
  }

  /** What the pieces denote: escaped halves that follow each other are one character. */
  function Denoted(ps: seq<Piece>): Text
    requires SoundPieces(ps)
  {
    if ps == [] then []
    else if |ps| > 1 && Halves(ps[0], ps[1]) then
      [0x1_0000 + (Code(ps[0]) - 0xD800) * 0x400 + (Code(ps[1]) - 0xDC00)] + Denoted(ps[2..])
    else [Code(ps[0])] + Denoted(ps[1..])
  }

  lemma {:induction false} HexExactly(c: CodePoint)
    ensures HexValue(c).Some? <==> IsHex(c)
    ensures IsHex(c) ==> HexValue(c).value == HexOf(c)
  {
  }

  lemma {:induction false} DigitsRead(d: Text, rest: Text)
    requires |d| == 4
    ensures Hex4(d + rest).Some? <==> SoundPiece(Unit(d))
    ensures SoundPiece(Unit(d)) ==> Hex4(d + rest) == Some(Code(Unit(d)))
  {
    var t := d + rest;
    assert t[0] == d[0] && t[1] == d[1] && t[2] == d[2] && t[3] == d[3];
    HexExactly(d[0]);
    HexExactly(d[1]);
    HexExactly(d[2]);
    HexExactly(d[3]);
    hide HexValue, IsHex, HexOf;
  }

  lemma {:induction false} LettersExactly(l: CodePoint)
    ensures ShortEscape(l).Some? <==> SoundPiece(Short(l))
    ensures SoundPiece(Short(l)) ==> ShortEscape(l) == Some(Code(Short(l))) && l != 0x75
  {
    var letters := T("\"\\/bfnrt");
    assert |letters| == 8;
    assert letters[0] == 0x22 && letters[1] == 0x5C && letters[2] == 0x2F && letters[3] == 0x62;
    assert letters[4] == 0x66 && letters[5] == 0x6E && letters[6] == 0x72 && letters[7] == 0x74;
  }

  lemma {:induction false} EscapeStart()
    ensures T("\\") == [BACKSLASH] && T("\\u") == [BACKSLASH, 0x75] && T("\"") == [QUOTE]
  {
  }

  /** What follows the opening quote: the pieces, the closing quote, and the rest. */
  function Closed(ps: seq<Piece>, rest: Text): Text {
    SpellAll(ps) + [QUOTE] + rest
  }

  lemma {:induction false} ClosedStep(ps: seq<Piece>, rest: Text)
    requires ps != []
    ensures Closed(ps, rest) == Spelling(ps[0]) + Closed(ps[1..], rest)
  {
    hide Spelling;
    assert SpellAll(ps) == Spelling(ps[0]) + SpellAll(ps[1..]);
  }

  lemma {:induction false} PlainReads(c: CodePoint, tail: Text)
    requires SoundPiece(Plain(c))
    ensures ReadChars(Spelling(Plain(c)) + tail) == Prepend(c, ReadChars(tail))
  {
    assert ([c] + tail)[1..] == tail;
  }

  lemma {:induction false} ShortReads(l: CodePoint, tail: Text)
    requires SoundPiece(Short(l))
    ensures ReadChars(Spelling(Short(l)) + tail) == Prepend(Code(Short(l)), ReadChars(tail))
  {
    EscapeStart();
    LettersExactly(l);
    var t := Spelling(Short(l)) + tail;
    assert t[0] == BACKSLASH && t[1] == l && t[2..] == tail;
    hide ShortEscape, Code, SoundPiece;
  }

  lemma {:induction false} UnitReadsAs(d: Text, tail: Text)
    requires SoundPiece(Unit(d))
    ensures ReadChars(Spelling(Unit(d)) + tail) == ReadUnit(Code(Unit(d)), tail)
  {
    EscapeStart();
    DigitsRead(d, tail);
    var t := Spelling(Unit(d)) + tail;
    assert t[0] == BACKSLASH && t[1] == 0x75 && t[2..] == d + tail && t[6..] == tail;
    hide Hex4, Code, SoundPiece, ReadUnit;
  }

  /** A unit that no second half follows. */
  lemma {:induction false} LoneUnit(u: CodePoint, tail: Text)
    requires High(u) && |tail| >= 2 && tail[0] == BACKSLASH && tail[1] == 0x75 ==>
      Hex4(tail[2..]).Some? && !Low(Hex4(tail[2..]).value)
    ensures ReadUnit(u, tail) == Prepend(u, ReadChars(tail))
  {
    hide ReadChars, Hex4;
  }

  lemma {:induction false} NotUnitStart(ps: seq<Piece>, rest: Text)
    requires SoundPieces(ps) && (ps == [] || !ps[0].Unit?)
    ensures var t := Closed(ps, rest); |t| >= 2 && t[0] == BACKSLASH ==> t[1] != 0x75
  {
    EscapeStart();
    if ps != [] {
      ClosedStep(ps, rest);
      if ps[0].Short? {
        LettersExactly(ps[0].letter);
        hide ShortEscape;
        assert Closed(ps, rest)[1] == ps[0].letter;
      }
    }
  }

  /** Sound pieces before a closing quote are read as what they denote. */
  lemma {:induction false} SpelledReads(ps: seq<Piece>, rest: Text)
    requires SoundPieces(ps)
    ensures ReadChars(Closed(ps, rest)) == Some((Denoted(ps), rest))
    decreases |ps|
  {
    if ps == [] {
      assert Closed(ps, rest) == [QUOTE] + rest && ([QUOTE] + rest)[1..] == rest;
    } else {
      var tail := Closed(ps[1..], rest);
      ClosedStep(ps, rest);
      SpelledReads(ps[1..], rest);
      hide Closed, SoundPiece, Code;
      match ps[0]
      case Plain(c) => PlainReads(c, tail); CodePlain(c);
      case Short(l) => ShortReads(l, tail);
      case Unit(d) => UnitSpelled(ps, rest);
    }
  }

  lemma {:induction false} CodePlain(c: CodePoint)
    requires SoundPiece(Plain(c))
    ensures Code(Plain(c)) == c
  {
  }

  lemma {:induction false} UnitSpelled(ps: seq<Piece>, rest: Text)
    requires SoundPieces(ps) && ps != [] && ps[0].Unit?
    requires ReadChars(Closed(ps[1..], rest)) == Some((Denoted(ps[1..]), rest))
    ensures ReadChars(Closed(ps, rest)) == Some((Denoted(ps), rest))
    decreases |ps|, 0
  {
    var u, tail := Code(ps[0]), Closed(ps[1..], rest);
    ClosedStep(ps, rest);
    UnitReadsAs(ps[0].digits, tail);
    hide Closed, SoundPiece, Code;
    if |ps| > 1 && ps[1].Unit? {
      UnitPair(ps, rest);
    } else {
      NotUnitStart(ps[1..], rest);
      LoneUnit(u, tail);
    }
  }

  lemma {:induction false} UnitPair(ps: seq<Piece>, rest: Text)
    requires SoundPieces(ps) && |ps| > 1 && ps[0].Unit? && ps[1].Unit?
    requires ReadChars(Closed(ps[1..], rest)) == Some((Denoted(ps[1..]), rest))
    ensures ReadUnit(Code(ps[0]), Closed(ps[1..], rest)) == Some((Denoted(ps), rest))
  {
    var u, v := Code(ps[0]), Code(ps[1]);
    var tail, end := Closed(ps[1..], rest), Closed(ps[2..], rest);
    ClosedStep(ps[1..], rest);
    assert ps[1..][0] == ps[1] && ps[1..][1..] == ps[2..];
    EscapeStart();
    DigitsRead(ps[1].digits, end);
    assert tail[0] == BACKSLASH && tail[1] == 0x75 && tail[2..] == ps[1].digits + end && tail[6..] == end;
    UnitReadsAs(ps[1].digits, end);
    hide Closed, SoundPiece, Code, Hex4;
    if Halves(ps[0], ps[1]) {
      LoneUnit(v, end);
      assert Denoted(ps[1..]) == [v] + Denoted(ps[2..]);
      assert ReadChars(end) == Some((Denoted(ps[2..]), rest)) by {
        var r := ReadChars(end);
        assert r.Some? && [v] + r.value.0 == [v] + Denoted(ps[2..]);
        assert r.value.0 == ([v] + r.value.0)[1..] && Denoted(ps[2..]) == ([v] + Denoted(ps[2..]))[1..];
      }
      hide ReadChars;
      assert ReadUnit(u, tail) == Prepend(Astral(u, v), ReadChars(end));
    } else {
      if !Low(v) {
        LoneUnit(u, tail);
      }
    }
  }

  /** Whatever is read up to a closing quote is spelled by sound pieces. */
  lemma {:induction false} ReadsSpelled(t: Text) returns (ps: seq<Piece>)
    requires ReadChars(t).Some?
    ensures SoundPieces(ps) && t == Closed(ps, ReadChars(t).value.1)
    decreases |t|
  {
    EscapeStart();
    if t[0] == QUOTE {
      ps := [];
      assert t == [QUOTE] + t[1..];
    } else {
      var first, tail;
      first, tail := FirstPiece(t);
      var more := ReadsSpelled(tail);
      ps := [first] + more;
      ClosedStep(ps, ReadChars(t).value.1);
      assert ps[1..] == more;
    }
  }

  lemma {:induction false} FirstPiece(t: Text) returns (p: Piece, tail: Text)
    requires ReadChars(t).Some? && t[0] != QUOTE
    ensures SoundPiece(p) && t == Spelling(p) + tail && |tail| < |t|
    ensures ReadChars(tail).Some? && ReadChars(tail).value.1 == ReadChars(t).value.1
  {
    EscapeStart();
    if t[0] != BACKSLASH {
      p, tail := Plain(t[0]), t[1..];
    } else if t[1] != 0x75 {
      LettersExactly(t[1]);
      p, tail := Short(t[1]), t[2..];
      assert t == [t[0], t[1]] + t[2..];
    } else {
      var d := t[2..6];
      tail := t[6..];
      assert t[2..] == d + tail;
      DigitsRead(d, tail);
      p := Unit(d);
      assert t == [t[0], t[1]] + d + tail;
      UnitTail(Code(p), tail);
    }
  }

  /** The rest after a unit is the rest after what follows it. */
  lemma {:induction false} UnitTail(u: CodePoint, tail: Text)
    requires ReadUnit(u, tail).Some?
    ensures ReadChars(tail).Some? && ReadChars(tail).value.1 == ReadUnit(u, tail).value.1
  {
    if High(u) && |tail| >= 2 && tail[0] == BACKSLASH && tail[1] == 0x75 && Low(Hex4(tail[2..]).value) {
      LoneUnit(Hex4(tail[2..]).value, tail[6..]);
    }
  }

  ghost predicate SpelledBy(t: Text, ps: seq<Piece>, s: Text, rest: Text) {
    SoundPieces(ps) && t == SpellAll(ps) + T("\"") + rest && s == Denoted(ps)
  }

  /** The string literals, after their opening quote, and what they denote. */
  lemma {:induction false} StringExactly(t: Text, s: Text, rest: Text)
    ensures ReadChars(t) == Some((s, rest)) <==> exists ps :: SpelledBy(t, ps, s, rest)
  {
    EscapeStart();
    if ps :| SpelledBy(t, ps, s, rest) {
      SpelledReads(ps, rest);
    }
    if ReadChars(t) == Some((s, rest)) {
      var ps := ReadsSpelled(t);
      SpelledReads(ps, rest);
      assert SpelledBy(t, ps, s, rest);
    }
  }

  // ---------------------------------------------------------------- numbers

  predicate AllDigits(t: Text) {
    forall i :: 0 <= i < |t| ==> '0' as int <= t[i] <= '9' as int
  }

  /** A whole number without leading zeros, a fraction and an exponent, of which the last two may be missing. */
  datatype Numeral = Numeral(negative: bool, whole: Text, fraction: Text, exponent: Text)

  predicate SoundFraction(t: Text) {
    t == [] || (|t| > 1 && t[0] == '.' as int && AllDigits(t[1..]))
  }

  predicate SoundExponent(t: Text) {
    || t == []
    || (|t| > 1 && (t[0] == 'e' as int || t[0] == 'E' as int) && AllDigits(t[1..]))
    || (|t| > 2 && (t[0] == 'e' as int || t[0] == 'E' as int) && (t[1] == '+' as int || t[1] == '-' as int)
        && AllDigits(t[2..]))
  }

  predicate SoundNumeral(n: Numeral) {
    && n.whole != [] && AllDigits(n.whole) && (|n.whole| > 1 ==> n.whole[0] != '0' as int)
    && SoundFraction(n.fraction) && SoundExponent(n.exponent)
  }

  function NumeralText(n: Numeral): Text {
    (if n.negative then T("-") else []) + n.whole + (n.fraction + n.exponent)
  }

  function Decimal(t: Text): int {
    if t == [] then 0 else Decimal(t[..|t| - 1]) * 10 + (t[|t| - 1] - '0' as int)
  }

  lemma {:induction false} DigitsSpan(t: Text, rest: Text)
    requires AllDigits(t) && (rest == [] || !Digit(rest[0]))
    ensures Span(t + rest) == |t|
  {
    if t == [] {
      assert t + rest == rest;
    } else {
      DigitsSpan(t[1..], rest);
      assert (t + rest)[1..] == t[1..] + rest;
    }
  }

  lemma {:induction false} ExponentEnds(e: Text)
    requires SoundExponent(e)
    ensures ExponentSpan(e) == |e|
    ensures e == [] || (!Digit(e[0]) && e[0] != DOT)
  {
    if e != [] {
      var sign := if |e| > 1 && (e[1] == 0x2B || e[1] == MINUS) then 1 else 0;
      assert e[1 + sign..] + [] == e[1 + sign..];
      assert AllDigits(e[1..]) ==> Digit(e[1]);
      DigitsSpan(e[1 + sign..], []);
    }
  }

  lemma {:induction false} FractionEnds(f: Text, e: Text)
    requires SoundFraction(f) && SoundExponent(e)
    ensures FractionSpan(f + e) == |f| && TailSpan(f + e) == |f| + |e|
    ensures f + e == [] || !Digit((f + e)[0])
  {
    ExponentEnds(e);
    assert (f + e)[|f|..] == e;
    if f == [] {
      assert f + e == e;
    } else {
      assert (f + e)[1..] == f[1..] + e;
      DigitsSpan(f[1..], e);
    }
  }

  lemma {:induction false} NumeralEnds(n: Numeral)
    requires SoundNumeral(n)
    ensures var t, sign := NumeralText(n), if n.negative then 1 else 0;
      && SignSpan(t) == sign && WholeEnd(t) == sign + |n.whole| && NumberEnd(t) == |t|
      && t[sign..WholeEnd(t)] == n.whole
  {
    var t, sign := NumeralText(n), if n.negative then 1 else 0;
    var tail := n.fraction + n.exponent;
    FractionEnds(n.fraction, n.exponent);
    WholeEnds(n, tail);
    hide WholeEnd, TailSpan, SoundFraction, SoundExponent;
    TailFrom(if n.negative then T("-") else [], n.whole, tail);
  }

  lemma {:induction false} TailFrom(a: Text, b: Text, c: Text)
    ensures (a + b + c)[|a| + |b|..] == c
  {
  }

  lemma {:induction false} WholeEnds(n: Numeral, tail: Text)
    requires SoundNumeral(n) && (tail == [] || !Digit(tail[0]))
    ensures var t, sign := (if n.negative then T("-") else []) + n.whole + tail, if n.negative then 1 else 0;
      SignSpan(t) == sign && WholeEnd(t) == sign + |n.whole| && t[sign..WholeEnd(t)] == n.whole
  {
    hide SoundFraction, SoundExponent;
    var t, sign := (if n.negative then T("-") else []) + n.whole + tail, if n.negative then 1 else 0;
    assert Digit(n.whole[0]);
    assert t[sign..] == n.whole + tail;
    DigitsSpan(n.whole, tail);
  }

  lemma {:induction false} DecimalExactly(t: Text)
    requires AllDigits(t)
    ensures DigitsValue(t) == Decimal(t)
  {
    if t != [] {
      DecimalExactly(t[..|t| - 1]);
    }
  }

  /** A number that nothing extends: whole ones are integers, the others what the float conversion makes of them. */
  lemma {:induction false} NumberExactly(scan: FloatScan, n: Numeral, rest: Text)
    requires SoundNumeral(n) && Breaks(rest)
    ensures ReadNumber(scan, NumeralText(n) + rest) ==
      if n.fraction == [] && n.exponent == [] then
        Some((Leaf(Int(if n.negative then 0 - Decimal(n.whole) else Decimal(n.whole))), rest))
      else match scan(NumeralText(n))
        case None => None
        case Some((repr, x)) => Some((Leaf(Float(repr, x)), rest))
  {
    var t, sign := NumeralText(n), if n.negative then 1 else 0;
    NumeralEnds(n);
    NumberAppend(t, rest);
    DecimalExactly(n.whole);
    assert (t + rest)[..|t|] == t && (t + rest)[|t|..] == rest;
    var k := WholeEnd(t);
    assert (t + rest)[sign..k] == t[sign..k];
    hide WholeEnd, NumberEnd, DigitsValue, Decimal, SoundNumeral;
    assert SignSpan(t + rest) == sign;
    assert |t| == k + |n.fraction| + |n.exponent|;
  }
}
