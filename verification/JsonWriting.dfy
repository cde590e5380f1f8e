/**
 JSON documents as they are written (RFC 8259): every spelling of a scalar and any blanks between tokens. The
 reader of `JsonText` accepts exactly these texts, so what the strict hooks refuse can be said of all of them.
 */
module JsonWriting {
  import opened Options
  import opened Texts
  import opened Json
  import opened JsonText
  import opened CanonicalJson

  datatype Writing =
    | Word(text: Text)
    | Array(inner: Text, items: seq<Element>)
    | Object(inner: Text, members: seq<Member>)

  /** An array member between its blanks. */
  datatype Element = Element(before: Text, item: Writing, after: Text)

  /** An object member: a quoted name, the blanks around the colon, and the value between its blanks. */
  datatype Member = Member(before: Text, name: Text, colon: Text, item: Writing, after: Text)

  /** The blanks of JSON. */
  predicate Spaces(t: Text) {
    forall i :: 0 <= i < |t| ==> t[i] == 0x20 || t[i] == 0x09 || t[i] == 0x0A || t[i] == 0x0D
  }

  /** One scalar, in whatever spelling the reader takes. */
  predicate WordOk(scan: FloatScan, t: Text) {
    ReadScalar(scan, t).Some? && ReadScalar(scan, t).value.1 == []
  }

  /** The blanks before and after the colon. */
  predicate ColonOk(t: Text) {
    exists i :: 0 <= i < |t| && t[i] == COLON && Spaces(t[..i]) && Spaces(t[i + 1..])
  }

  predicate NameOk(scan: FloatScan, t: Text) {
    WordOk(scan, t) && t[0] == QUOTE
  }

  /** Everything about an object member but its value. */
  predicate HeadOk(scan: FloatScan, m: Member) {
    Spaces(m.before) && Spaces(m.after) && NameOk(scan, m.name) && ColonOk(m.colon)
  }

  predicate WritingOk(scan: FloatScan, w: Writing) {
    match w
    case Word(t) => WordOk(scan, t)
    case Array(inner, items) =>
      Spaces(inner) && forall i :: 0 <= i < |items| ==>
        Spaces(items[i].before) && Spaces(items[i].after) && WritingOk(scan, items[i].item)
    case Object(inner, members) =>
      Spaces(inner) && forall i :: 0 <= i < |members| ==> HeadOk(scan, members[i]) && WritingOk(scan, members[i].item)
  }

  /** The text of a writing. */
  function Rendered(w: Writing): Text
    decreases w, 0
  {
    match w
    case Word(t) => t
    case Array(inner, items) =>
      [OPEN_ARRAY] + (if items == [] then inner else RenderedItems(items)) + [CLOSE_ARRAY]
    case Object(inner, members) =>
      [OPEN_OBJECT] + (if members == [] then inner else RenderedMembers(members)) + [CLOSE_OBJECT]
  }

  function RenderedItems(items: seq<Element>): Text
    requires items != []
  {
    var first := items[0].before + Rendered(items[0].item) + items[0].after;
    if |items| == 1 then first else first + [COMMA] + RenderedItems(items[1..])
  }

  function RenderedMembers(members: seq<Member>): Text
    requires members != []
  {
    var m := members[0];
    var first := m.before + m.name + m.colon + Rendered(m.item) + m.after;
    if |members| == 1 then first else first + [COMMA] + RenderedMembers(members[1..])
  }

  /** The tree it denotes. */
  function Denoted(scan: FloatScan, w: Writing): Tree
    requires WritingOk(scan, w)
    decreases w, 0
  {
    match w
    case Word(t) => ReadScalar(scan, t).value.0
    case Array(_, items) => Items(DenotedItems(scan, items))
    case Object(_, members) => Pairs(DenotedMembers(scan, members))
  }

  function DenotedItems(scan: FloatScan, items: seq<Element>): seq<Tree>
    requires forall i :: 0 <= i < |items| ==> WritingOk(scan, items[i].item)
  {
    if items == [] then [] else [Denoted(scan, items[0].item)] + DenotedItems(scan, items[1..])
  }

  function NameOf(scan: FloatScan, t: Text): Text
    requires NameOk(scan, t)
  {
    ReadScalar(scan, t).value.0.value.s
  }

  function DenotedMembers(scan: FloatScan, members: seq<Member>): seq<Pair>
    requires forall i :: 0 <= i < |members| ==> HeadOk(scan, members[i]) && WritingOk(scan, members[i].item)
  {
    if members == [] then []
    else
      assert HeadOk(scan, members[0]);
      [Pair(NameOf(scan, members[0].name), Denoted(scan, members[0].item))] + DenotedMembers(scan, members[1..])
  }

  // ---------------------------------------------------------------- scalars in their surroundings

  lemma {:induction false} HexAppend(t: Text, rest: Text)
    requires Hex4(t).Some?
    ensures Hex4(t + rest) == Hex4(t)
  {
  }

  /** A quoted string reads the same whatever follows it. */
  lemma {:induction false} CharsAppend(t: Text, rest: Text)
    requires ReadChars(t).Some?
    ensures ReadChars(t + rest) == Some((ReadChars(t).value.0, ReadChars(t).value.1 + rest))
    decreases |t|, 0
  {
    var u := t + rest;
    assert u[0] == t[0] && u[1..] == t[1..] + rest;
    if t[0] == QUOTE {
    } else if t[0] == BACKSLASH {
      assert |t| >= 2 && u[1] == t[1] && u[2..] == t[2..] + rest;
      if t[1] != 0x75 {
        CharsAppend(t[2..], rest);
      } else {
        HexAppend(t[2..], rest);
        assert u[6..] == t[6..] + rest;
        UnitAppend(Hex4(t[2..]).value, t[6..], rest);
      }
    } else {
      CharsAppend(t[1..], rest);
    }
  }

  lemma {:induction false} UnitAppend(c: CodePoint, tail: Text, rest: Text)
    requires ReadUnit(c, tail).Some?
    ensures ReadUnit(c, tail + rest) == Some((ReadUnit(c, tail).value.0, ReadUnit(c, tail).value.1 + rest))
    decreases |tail|, 1
  {
    var u := tail + rest;
    if High(c) && |tail| >= 2 && tail[0] == BACKSLASH && tail[1] == 0x75 {
      assert u[0] == tail[0] && u[1] == tail[1] && u[2..] == tail[2..] + rest;
      HexAppend(tail[2..], rest);
      assert u[6..] == tail[6..] + rest;
      if Low(Hex4(tail[2..]).value) {
        CharsAppend(tail[6..], rest);
      } else {
        CharsAppend(tail, rest);
      }
    } else {
      CharsAppend(tail, rest);
      assert u[0] == tail[0] && (|tail| >= 2 ==> u[1] == tail[1]);
    }
  }

  lemma {:induction false} NumberWordReads(scan: FloatScan, t: Text, rest: Text)
    requires ReadNumber(scan, t).Some? && ReadNumber(scan, t).value.1 == [] && Breaks(rest)
    ensures ReadNumber(scan, t + rest) == Some((ReadNumber(scan, t).value.0, rest))
  {
    hide WholeEnd, TailSpan, DigitsValue;
    var k, end := WholeEnd(t), NumberEnd(t);
    assert end == |t|;
    NumberAppend(t, rest);
    var u := t + rest;
    assert u[SignSpan(t)..k] == t[SignSpan(t)..k] && u[..end] == t[..end] && u[end..] == rest;
  }

  /** A scalar reads the same before anything that breaks it off. */
  lemma {:induction false} WordReads(scan: FloatScan, t: Text, rest: Text)
    requires WordOk(scan, t) && Breaks(rest)
    ensures ReadScalar(scan, t + rest) == Some((ReadScalar(scan, t).value.0, rest))
    ensures t[0] > 0x20 && t[0] != OPEN_ARRAY && t[0] != OPEN_OBJECT && t[0] != CLOSE_ARRAY && t[0] != CLOSE_OBJECT
  {
    hide ReadChars, ReadNumber;
    var u := t + rest;
    assert u[0] == t[0] && u[1..] == t[1..] + rest;
    if t[0] == QUOTE {
      CharsAppend(t[1..], rest);
      assert [] + rest == rest;
    } else if Digit(t[0]) || t[0] == MINUS {
      NumberWordReads(scan, t, rest);
    } else {
      LiteralAppend(t, rest);
    }
  }

  lemma {:induction false} LiteralAppend(t: Text, rest: Text)
    requires ReadLiteral(t).Some? && ReadLiteral(t).value.1 == []
    ensures ReadLiteral(t + rest) == Some((ReadLiteral(t).value.0, rest)) && t[0] in {0x6E, 0x74, 0x66}
  {
  }

  // ---------------------------------------------------------------- reading a writing

  lemma {:induction false} SpaceSkips(gap: Text, t: Text)
    requires Spaces(gap) && t != [] && t[0] > 0x20
    ensures SkipSpace(gap + t) == t
  {
    if gap == [] {
      assert gap + t == t;
    } else {
      assert (gap + t)[1..] == gap[1..] + t;
      SpaceSkips(gap[1..], t);
    }
  }

  /** A token that ends a value, after some blanks. */
  lemma {:induction false} AfterValue(gap: Text, t: Text)
    requires Spaces(gap) && t != [] && t[0] in {COMMA, COLON, CLOSE_ARRAY, CLOSE_OBJECT}
    ensures SkipSpace(gap + t) == t && Breaks(gap + t)
  {
    SpaceSkips(gap, t);
    assert (gap + t)[0] == if gap == [] then t[0] else gap[0];
  }

  lemma {:induction false} RenderedStart(scan: FloatScan, w: Writing)
    requires WritingOk(scan, w)
    ensures Rendered(w) != []
    ensures Rendered(w)[0] > 0x20 && Rendered(w)[0] != CLOSE_ARRAY && Rendered(w)[0] != CLOSE_OBJECT
  {
    if w.Word? {
      WordReads(scan, w.text, []);
    }
  }

  /** Reading a writing gives the tree it denotes, and leaves what follows. */
  lemma {:induction false} WritingReads(scan: FloatScan, w: Writing, rest: Text)
    requires WritingOk(scan, w) && Breaks(rest)
    ensures ReadTree(Scalars(scan), Rendered(w) + rest) == Some((Denoted(scan, w), rest))
    decreases w, 0
  {
    hide ReadScalar, ReadItems, ReadPairs, RenderedItems, RenderedMembers, DenotedItems, DenotedMembers;
    var u := Rendered(w) + rest;
    match w
    case Word(t) => WordReads(scan, t, rest);
    case Array(inner, items) =>
      var tail := [CLOSE_ARRAY] + rest;
      assert tail[1..] == rest;
      if items == [] {
        assert u[1..] == inner + tail;
        AfterValue(inner, tail);
        NothingDenoted(scan);
      } else {
        assert u[1..] == RenderedItems(items) + tail;
        ElementsRead(scan, items, rest);
      }
    case Object(inner, members) =>
      var tail := [CLOSE_OBJECT] + rest;
      assert tail[1..] == rest;
      if members == [] {
        assert u[1..] == inner + tail;
        AfterValue(inner, tail);
        NothingDenoted(scan);
      } else {
        assert u[1..] == RenderedMembers(members) + tail;
        MembersRead(scan, members, rest);
      }
  }

  lemma {:induction false} NothingDenoted(scan: FloatScan)
    ensures DenotedItems(scan, []) == [] && DenotedMembers(scan, []) == []
  {
  }

  /** One more array member, once it and those after it are known to read. */
  lemma {:induction false} ElementStep(
    lex: Lexer, u: Text, item: Tree, gap: Text, more: Text, items: seq<Tree>, rest: Text)
    requires Shrinks(lex) && Spaces(gap) && ReadTree(lex, u) == Some((item, gap + ([COMMA] + more)))
    requires ReadItems(lex, SkipSpace(more)) == Some((items, rest))
    ensures ReadItems(lex, u) == Some(([item] + items, rest))
  {
    AfterValue(gap, [COMMA] + more);
  }

  lemma {:induction false} ElementLast(lex: Lexer, u: Text, item: Tree, gap: Text, rest: Text)
    requires Shrinks(lex) && Spaces(gap) && ReadTree(lex, u) == Some((item, gap + ([CLOSE_ARRAY] + rest)))
    ensures ReadItems(lex, u) == Some(([item], rest))
  {
    AfterValue(gap, [CLOSE_ARRAY] + rest);
  }

  lemma {:induction false} ElementsRead(scan: FloatScan, items: seq<Element>, rest: Text)
    requires items != [] && forall i :: 0 <= i < |items| ==>
      Spaces(items[i].before) && Spaces(items[i].after) && WritingOk(scan, items[i].item)
    ensures var u := SkipSpace(RenderedItems(items) + ([CLOSE_ARRAY] + rest));
      && u != [] && u[0] != CLOSE_ARRAY
      && ReadItems(Scalars(scan), u) == Some((DenotedItems(scan, items), rest))
    decreases items
  {
    hide Rendered, Denoted, ReadTree, ReadItems, WritingOk, SkipSpace, Breaks;
    var e, lex := items[0], Scalars(scan);
    var more := if |items| == 1 then [] else RenderedItems(items[1..]) + ([CLOSE_ARRAY] + rest);
    var tail := if |items| == 1 then [CLOSE_ARRAY] + rest else [COMMA] + more;
    var u := Rendered(e.item) + (e.after + tail);
    assert RenderedItems(items) + ([CLOSE_ARRAY] + rest) == e.before + u;
    RenderedStart(scan, e.item);
    SpaceSkips(e.before, u);
    AfterValue(e.after, tail);
    WritingReads(scan, e.item, e.after + tail);
    if |items| == 1 {
      ElementLast(lex, u, Denoted(scan, e.item), e.after, rest);
      assert DenotedItems(scan, items) == [Denoted(scan, e.item)];
    } else {
      ElementsRead(scan, items[1..], rest);
      ElementStep(lex, u, Denoted(scan, e.item), e.after, more, DenotedItems(scan, items[1..]), rest);
    }
  }

  /** A name, its colon and what follows. */
  lemma {:induction false} HeadReads(scan: FloatScan, m: Member, tail: Text)
    requires HeadOk(scan, m) && tail != [] && tail[0] > 0x20
    ensures ReadName(Scalars(scan), m.name + (m.colon + tail)) == Some((NameOf(scan, m.name), tail))
  {
    hide ReadChars;
    var i :| 0 <= i < |m.colon| && m.colon[i] == COLON && Spaces(m.colon[..i]) && Spaces(m.colon[i + 1..]);
    var back := [COLON] + (m.colon[i + 1..] + tail);
    assert m.colon + tail == m.colon[..i] + back;
    AfterValue(m.colon[..i], back);
    WordReads(scan, m.name, m.colon + tail);
    assert back[1..] == m.colon[i + 1..] + tail;
    SpaceSkips(m.colon[i + 1..], tail);
    assert (m.name + (m.colon + tail))[0] == m.name[0];
  }

  lemma {:induction false} MemberStep(
    lex: Lexer, u: Text, name: Text, mid: Text, item: Tree, gap: Text, more: Text, pairs: seq<Pair>, rest: Text)
    requires Shrinks(lex) && Spaces(gap) && ReadName(lex, u) == Some((name, mid))
    requires ReadTree(lex, mid) == Some((item, gap + ([COMMA] + more)))
    requires ReadPairs(lex, SkipSpace(more)) == Some((pairs, rest))
    ensures ReadPairs(lex, u) == Some(([Pair(name, item)] + pairs, rest))
  {
    AfterValue(gap, [COMMA] + more);
  }

  lemma {:induction false} MemberLast(
    lex: Lexer, u: Text, name: Text, mid: Text, item: Tree, gap: Text, rest: Text)
    requires Shrinks(lex) && Spaces(gap) && ReadName(lex, u) == Some((name, mid))
    requires ReadTree(lex, mid) == Some((item, gap + ([CLOSE_OBJECT] + rest)))
    ensures ReadPairs(lex, u) == Some(([Pair(name, item)], rest))
  {
    AfterValue(gap, [CLOSE_OBJECT] + rest);
  }

  lemma {:induction false} MembersRead(scan: FloatScan, members: seq<Member>, rest: Text)
    requires members != []
    requires forall i :: 0 <= i < |members| ==> HeadOk(scan, members[i]) && WritingOk(scan, members[i].item)
    ensures var u := SkipSpace(RenderedMembers(members) + ([CLOSE_OBJECT] + rest));
      && u != [] && u[0] != CLOSE_OBJECT
      && ReadPairs(Scalars(scan), u) == Some((DenotedMembers(scan, members), rest))
    decreases members
  {
    hide Rendered, Denoted, ReadTree, ReadPairs, ReadName, WritingOk, WordOk, NameOf, ColonOk, NameOk, SkipSpace;
    hide Breaks;
    var m, lex := members[0], Scalars(scan);
    var more := if |members| == 1 then [] else RenderedMembers(members[1..]) + ([CLOSE_OBJECT] + rest);
    var tail := if |members| == 1 then [CLOSE_OBJECT] + rest else [COMMA] + more;
    var mid := Rendered(m.item) + (m.after + tail);
    var u := m.name + (m.colon + mid);
    assert RenderedMembers(members) + ([CLOSE_OBJECT] + rest) == m.before + u;
    RenderedStart(scan, m.item);
    NameStart(scan, m.name);
    SpaceSkips(m.before, u);
    AfterValue(m.after, tail);
    HeadReads(scan, m, mid);
    WritingReads(scan, m.item, m.after + tail);
    if |members| == 1 {
      MemberLast(lex, u, NameOf(scan, m.name), mid, Denoted(scan, m.item), m.after, rest);
      assert DenotedMembers(scan, members) == [Pair(NameOf(scan, m.name), Denoted(scan, m.item))];
    } else {
      MembersRead(scan, members[1..], rest);
      MemberStep(
        lex, u, NameOf(scan, m.name), mid, Denoted(scan, m.item), m.after, more, DenotedMembers(scan, members[1..]),
        rest);
    }
  }

  lemma {:induction false} NameStart(scan: FloatScan, t: Text)
    requires NameOk(scan, t)
    ensures t != [] && t[0] == QUOTE
  {
  }

  // ---------------------------------------------------------------- whatever is read is a writing

  lemma {:induction false} SpaceSplit(t: Text) returns (gap: Text)
    ensures Spaces(gap) && t == gap + SkipSpace(t)
  {
    if SkipSpace(t) == t {
      gap := [];
      assert t == gap + t;
    } else {
      var rest := SpaceSplit(t[1..]);
      gap := [t[0]] + rest;
      assert t == [t[0]] + t[1..];
    }
  }

  /** The part of the text a quoted string takes up. */
  lemma {:induction false} CharsPrefix(t: Text) returns (p: Text)
    requires ReadChars(t).Some?
    ensures t == p + ReadChars(t).value.1 && ReadChars(p) == Some((ReadChars(t).value.0, []))
    decreases |t|, 0
  {
    if t[0] == QUOTE {
      p := t[..1];
      assert p[1..] == [];
    } else if t[0] == BACKSLASH {
      assert |t| >= 2;
      if t[1] != 0x75 {
        var q := CharsPrefix(t[2..]);
        p := t[..2] + q;
        assert p[0] == t[0] && p[1] == t[1] && p[2..] == q;
      } else {
        var q := UnitPrefix(Hex4(t[2..]).value, t[6..]);
        p := t[..6] + q;
        assert p[0] == t[0] && p[1] == t[1] && p[6..] == q && p[2..] == t[2..6] + q;
        HexAppend(t[2..6], q);
        HexAppend(t[2..6], t[6..]);
        assert t[2..6] + t[6..] == t[2..];
      }
    } else {
      var q := CharsPrefix(t[1..]);
      p := [t[0]] + q;
      assert p[1..] == q;
    }
  }

  lemma {:induction false} UnitPrefix(c: CodePoint, tail: Text) returns (q: Text)
    requires ReadUnit(c, tail).Some?
    ensures tail == q + ReadUnit(c, tail).value.1 && ReadUnit(c, q) == Some((ReadUnit(c, tail).value.0, []))
    decreases |tail|, 1
  {
    if High(c) && |tail| >= 2 && tail[0] == BACKSLASH && tail[1] == 0x75 && Low(Hex4(tail[2..]).value) {
      var more := CharsPrefix(tail[6..]);
      q := tail[..6] + more;
      assert q[0] == tail[0] && q[1] == tail[1] && q[6..] == more && q[2..] == tail[2..6] + more;
      HexAppend(tail[2..6], more);
      HexAppend(tail[2..6], tail[6..]);
      assert tail[2..6] + tail[6..] == tail[2..];
    } else {
      q := CharsPrefix(tail);
      var rest := ReadChars(tail).value.1;
      assert q != [] && tail[0] == q[0] && (|q| >= 2 ==> tail[1] == q[1] && tail[2..] == q[2..] + rest);
      if High(c) && |q| >= 2 && q[0] == BACKSLASH && q[1] == 0x75 {
        HexAppend(q[2..], rest);
      }
    }
  }

  lemma {:induction false} SpanPrefix(t: Text, n: nat)
    requires Span(t) <= n <= |t|
    ensures Span(t[..n]) == Span(t)
  {
    if n > 0 && Digit(t[0]) {
      SpanPrefix(t[1..], n - 1);
      assert t[..n][1..] == t[1..][..n - 1];
    }
  }

  lemma {:induction false} FractionPrefix(a: Text, n: nat)
    requires FractionSpan(a) <= n <= |a|
    ensures FractionSpan(a[..n]) == FractionSpan(a)
  {
    if n > 0 && a[0] == DOT {
      SpanPrefix(a[1..], if FractionSpan(a) > 0 then n - 1 else |a| - 1);
      assert a[..n][1..] == a[1..][..n - 1];
      if FractionSpan(a) == 0 {
        SpanPrefix(a[1..], n - 1);
      }
    }
  }

  lemma {:induction false} ExponentPrefix(b: Text)
    ensures ExponentSpan(b[..ExponentSpan(b)]) == ExponentSpan(b)
  {
    var n := ExponentSpan(b);
    if n > 0 {
      var sign := if |b| > 1 && (b[1] == 0x2B || b[1] == MINUS) then 1 else 0;
      assert b[..n][1 + sign..] == b[1 + sign..][..n - 1 - sign];
      SpanPrefix(b[1 + sign..], n - 1 - sign);
    }
  }

  lemma {:induction false} TailPrefix(a: Text)
    ensures TailSpan(a[..TailSpan(a)]) == TailSpan(a)
  {
    var f, n := FractionSpan(a), TailSpan(a);
    FractionPrefix(a, n);
    assert a[..n][f..] == a[f..][..n - f];
    ExponentPrefix(a[f..]);
  }

  lemma {:induction false} WholePrefix(t: Text, n: nat)
    requires WholeSpan(t) <= n <= |t|
    ensures WholeSpan(t[..n]) == WholeSpan(t)
  {
    SpanPrefix(t, if Span(t) <= n then n else |t|);
  }

  lemma {:induction false} NumberEndPrefix(t: Text)
    requires WholeEnd(t) > 0
    ensures var p := t[..NumberEnd(t)];
      SignSpan(p) == SignSpan(t) && WholeEnd(p) == WholeEnd(t) && NumberEnd(p) == NumberEnd(t)
  {
    hide WholeSpan, TailSpan;
    var sign, k, end := SignSpan(t), WholeEnd(t), NumberEnd(t);
    var p := t[..end];
    assert p[sign..] == t[sign..][..end - sign];
    WholePrefix(t[sign..], end - sign);
    assert p[k..] == t[k..][..end - k];
    TailPrefix(t[k..]);
  }

  /** The part of the text a number takes up. */
  lemma {:induction false} NumberPrefix(scan: FloatScan, t: Text) returns (p: Text)
    requires ReadNumber(scan, t).Some?
    ensures t == p + ReadNumber(scan, t).value.1 && p != [] && p[0] == t[0]
    ensures ReadNumber(scan, p) == Some((ReadNumber(scan, t).value.0, []))
  {
    hide WholeEnd, NumberEnd, DigitsValue;
    var sign, k, end := SignSpan(t), WholeEnd(t), NumberEnd(t);
    p := t[..end];
    NumberEndPrefix(t);
    assert p[sign..k] == t[sign..k] && p[..end] == t[..end] && p[end..] == [];
  }

  /** The part of the text a scalar takes up is the scalar's own spelling. */
  lemma {:induction false} WordPrefix(scan: FloatScan, t: Text) returns (p: Text)
    requires ReadScalar(scan, t).Some?
    ensures WordOk(scan, p) && t == p + ReadScalar(scan, t).value.1
    ensures ReadScalar(scan, p).value.0 == ReadScalar(scan, t).value.0 && p[0] == t[0]
  {
    hide ReadChars, ReadNumber;
    if t[0] == QUOTE {
      var q := CharsPrefix(t[1..]);
      p := [QUOTE] + q;
      assert p[1..] == q;
    } else if Digit(t[0]) || t[0] == MINUS {
      p := NumberPrefix(scan, t);
    } else {
      p := if t[..4] == NULL || t[..4] == TRUE then t[..4] else t[..5];
    }
  }

  /** The same members after some more blanks. */
  function LedItems(items: seq<Element>, gap: Text): seq<Element>
    requires items != []
  {
    [items[0].(before := gap)] + items[1..]
  }

  function LedMembers(members: seq<Member>, gap: Text): seq<Member>
    requires members != []
  {
    [members[0].(before := gap)] + members[1..]
  }

  predicate ItemsOk(scan: FloatScan, items: seq<Element>) {
    forall i :: 0 <= i < |items| ==>
      Spaces(items[i].before) && Spaces(items[i].after) && WritingOk(scan, items[i].item)
  }

  predicate MembersOk(scan: FloatScan, members: seq<Member>) {
    forall i :: 0 <= i < |members| ==> HeadOk(scan, members[i]) && WritingOk(scan, members[i].item)
  }

  lemma {:induction false} LedItemsRender(scan: FloatScan, items: seq<Element>, gap: Text)
    requires items != [] && items[0].before == [] && Spaces(gap) && ItemsOk(scan, items)
    ensures var led := LedItems(items, gap);
      && RenderedItems(led) == gap + RenderedItems(items)
      && ItemsOk(scan, led) && DenotedItems(scan, led) == DenotedItems(scan, items)
  {
    hide Rendered, Denoted, WritingOk;
    var led := LedItems(items, gap);
    assert led[1..] == items[1..];
  }

  lemma {:induction false} LedMembersRender(scan: FloatScan, members: seq<Member>, gap: Text)
    requires members != [] && members[0].before == [] && Spaces(gap) && MembersOk(scan, members)
    ensures var led := LedMembers(members, gap);
      && led != [] && RenderedMembers(led) == gap + RenderedMembers(members)
      && MembersOk(scan, led) && DenotedMembers(scan, led) == DenotedMembers(scan, members)
  {
    hide Rendered, Denoted, WritingOk, NameOk, ColonOk, NameOf;
    var led := LedMembers(members, gap);
    assert led[1..] == members[1..];
  }

  /** Whatever value is read, the text in front of the rest is a writing of it. */
  lemma {:induction false} ReadIsWritten(scan: FloatScan, t: Text) returns (w: Writing)
    requires ReadTree(Scalars(scan), t).Some?
    ensures WritingOk(scan, w) && Denoted(scan, w) == ReadTree(Scalars(scan), t).value.0
    ensures t == Rendered(w) + ReadTree(Scalars(scan), t).value.1
    decreases |t|, 0
  {
    hide ReadScalar, ReadItems, ReadPairs, RenderedItems, RenderedMembers, DenotedItems, DenotedMembers, SkipSpace;
    var rest := ReadTree(Scalars(scan), t).value.1;
    if t[0] == OPEN_ARRAY {
      var u := SkipSpace(t[1..]);
      var gap := SpaceSplit(t[1..]);
      NothingDenoted(scan);
      if u[0] == CLOSE_ARRAY {
        w := Array(gap, []);
      } else {
        var items := ItemsAreWritten(scan, u);
        LedItemsRender(scan, items, gap);
        w := Array([], LedItems(items, gap));
      }
    } else if t[0] == OPEN_OBJECT {
      var u := SkipSpace(t[1..]);
      var gap := SpaceSplit(t[1..]);
      NothingDenoted(scan);
      if u[0] == CLOSE_OBJECT {
        w := Object(gap, []);
      } else {
        var members := MembersAreWritten(scan, u);
        LedMembersRender(scan, members, gap);
        w := Object([], LedMembers(members, gap));
      }
    } else {
      var p := WordPrefix(scan, t);
      w := Word(p);
    }
  }

  lemma {:induction false} ItemsAreWritten(scan: FloatScan, t: Text) returns (items: seq<Element>)
    requires ReadItems(Scalars(scan), t).Some?
    ensures items != [] && items[0].before == [] && ItemsOk(scan, items)
    ensures DenotedItems(scan, items) == ReadItems(Scalars(scan), t).value.0
    ensures t == RenderedItems(items) + [CLOSE_ARRAY] + ReadItems(Scalars(scan), t).value.1
    decreases |t|, 1
  {
    hide Rendered, Denoted, ReadTree, WritingOk, SkipSpace;
    var lex := Scalars(scan);
    var w := ReadIsWritten(scan, t);
    var rest := ReadTree(lex, t).value.1;
    var u := SkipSpace(rest);
    var gap := SpaceSplit(rest);
    var e := Element([], w, gap);
    if u[0] == CLOSE_ARRAY {
      items := [e];
    } else {
      var more := SkipSpace(u[1..]);
      var lead := SpaceSplit(u[1..]);
      var others := ItemsAreWritten(scan, more);
      LedItemsRender(scan, others, lead);
      items := [e] + LedItems(others, lead);
    }
  }

  lemma {:induction false} MemberHead(scan: FloatScan, m: Member)
    requires Spaces(m.before) && Spaces(m.after) && NameOk(scan, m.name) && ColonOk(m.colon)
    ensures HeadOk(scan, m)
  {
  }

  lemma {:induction false} MemberAlone(scan: FloatScan, m: Member)
    requires m.before == [] && HeadOk(scan, m) && WritingOk(scan, m.item)
    ensures MembersOk(scan, [m]) && RenderedMembers([m]) == m.name + m.colon + Rendered(m.item) + m.after
    ensures DenotedMembers(scan, [m]) == [Pair(NameOf(scan, m.name), Denoted(scan, m.item))]
  {
    hide HeadOk, WritingOk, Rendered, Denoted, NameOf;
  }

  lemma {:induction false} MembersAdded(scan: FloatScan, m: Member, others: seq<Member>)
    requires m.before == [] && HeadOk(scan, m) && WritingOk(scan, m.item) && others != [] && MembersOk(scan, others)
    ensures var all := [m] + others;
      && MembersOk(scan, all)
      && RenderedMembers(all) ==
        m.name + m.colon + Rendered(m.item) + m.after + [COMMA] + RenderedMembers(others)
      && DenotedMembers(scan, all) ==
        [Pair(NameOf(scan, m.name), Denoted(scan, m.item))] + DenotedMembers(scan, others)
  {
    hide HeadOk, WritingOk, Rendered, Denoted, NameOf;
    assert ([m] + others)[1..] == others;
  }

  lemma {:induction false} MembersAreWritten(scan: FloatScan, t: Text) returns (members: seq<Member>)
    requires ReadPairs(Scalars(scan), t).Some?
    ensures members != [] && members[0].before == [] && MembersOk(scan, members)
    ensures DenotedMembers(scan, members) == ReadPairs(Scalars(scan), t).value.0
    ensures t == RenderedMembers(members) + [CLOSE_OBJECT] + ReadPairs(Scalars(scan), t).value.1
    decreases |t|, 1
  {
    hide Rendered, Denoted, ReadTree, WritingOk, SkipSpace, ReadName, HeadOk, NameOf, LedMembers, MembersOk;
    hide RenderedMembers, DenotedMembers;
    var lex := Scalars(scan);
    var afterName := ReadName(lex, t).value.1;
    var name, colon := NameIsWritten(scan, t);
    var w := ReadIsWritten(scan, afterName);
    var rest := ReadTree(lex, afterName).value.1;
    var u := SkipSpace(rest);
    var gap := SpaceSplit(rest);
    var m := Member([], name, colon, w, gap);
    var first := name + colon + Rendered(w) + gap;
    assert t == first + u;
    MemberHead(scan, m);
    if u[0] == CLOSE_OBJECT {
      members := [m];
      MemberAlone(scan, m);
      assert u == [CLOSE_OBJECT] + u[1..];
    } else {
      var more := SkipSpace(u[1..]);
      var lead := SpaceSplit(u[1..]);
      var others := MembersAreWritten(scan, more);
      LedMembersRender(scan, others, lead);
      members := [m] + LedMembers(others, lead);
      MembersAdded(scan, m, LedMembers(others, lead));
      assert u == [COMMA] + (lead + more);
    }
  }

  lemma {:induction false} NameIsWritten(scan: FloatScan, t: Text) returns (name: Text, colon: Text)
    requires ReadName(Scalars(scan), t).Some?
    ensures NameOk(scan, name) && ColonOk(colon) && NameOf(scan, name) == ReadName(Scalars(scan), t).value.0
    ensures t == name + colon + ReadName(Scalars(scan), t).value.1
  {
    hide ReadScalar, SkipSpace;
    name := WordPrefix(scan, t);
    var afterKey := ReadScalar(scan, t).value.1;
    var u := SkipSpace(afterKey);
    var before := SpaceSplit(afterKey);
    var after := SpaceSplit(u[1..]);
    colon := before + [COLON] + after;
    assert colon[|before|] == COLON && colon[..|before|] == before && colon[|before| + 1..] == after;
  }

  // ---------------------------------------------------------------- what is accepted

  /** `t` is a document that says `tree`, in some spelling, with some blanks. */
  ghost predicate Says(scan: FloatScan, t: Text, tree: Tree) {
    exists before, w, after :: Written(scan, t, tree, before, w, after)
  }

  predicate Written(scan: FloatScan, t: Text, tree: Tree, before: Text, w: Writing, after: Text) {
    && Spaces(before) && Spaces(after) && WritingOk(scan, w)
    && t == before + Rendered(w) + after && Denoted(scan, w) == tree
  }

  /**
   A document, however it is written, is refused exactly when some object in it, at whatever depth, repeats a
   member; otherwise it denotes what it says.
   */
  lemma {:induction false} DuplicateRejected(scan: FloatScan, t: Text, tree: Tree)
    requires Says(scan, t, tree)
    ensures Loads(scan, t) == if NoDuplicates(tree) then Some(Fold(tree)) else None
  {
    hide Rendered, Denoted, WritingOk, ReadTree, NoDuplicates;
    var before, w, after :| Written(scan, t, tree, before, w, after);
    var body := Rendered(w) + after;
    RenderedStart(scan, w);
    assert t == before + body;
    SpaceSkips(before, body);
    SpacesEnd(after);
    WritingReads(scan, w, after);
  }

  lemma {:induction false} SpacesEnd(gap: Text)
    requires Spaces(gap)
    ensures SkipSpace(gap) == [] && Breaks(gap)
  {
    if gap != [] {
      SpacesEnd(gap[1..]);
    }
  }

  /** The strict reader accepts exactly the documents without a repeated member, and gives their values. */
  lemma {:induction false} LoadsExactly(scan: FloatScan, t: Text, v: Value)
    ensures Loads(scan, t) == Some(v) <==> exists tree :: Says(scan, t, tree) && NoDuplicates(tree) && Fold(tree) == v
  {
    hide Says, ReadTree, NoDuplicates, SkipSpace;
    if Loads(scan, t) == Some(v) {
      var tree := Said(scan, t);
      DuplicateRejected(scan, t, tree);
    }
    if exists tree :: Says(scan, t, tree) && NoDuplicates(tree) && Fold(tree) == v {
      var tree :| Says(scan, t, tree) && NoDuplicates(tree) && Fold(tree) == v;
      DuplicateRejected(scan, t, tree);
    }
  }

  lemma {:induction false} Said(scan: FloatScan, t: Text) returns (tree: Tree)
    requires Loads(scan, t).Some?
    ensures Says(scan, t, tree)
  {
    hide Rendered, Denoted, WritingOk, ReadTree, NoDuplicates;
    var before := SpaceSplit(t);
    var u := SkipSpace(t);
    var w := ReadIsWritten(scan, u);
    var rest := ReadTree(Scalars(scan), u).value.1;
    var after := SpaceSplit(rest);
    tree := ReadTree(Scalars(scan), u).value.0;
    assert rest == after + [] == after;
    assert t == before + Rendered(w) + after;
    assert Written(scan, t, tree, before, w, after);
  }
}
