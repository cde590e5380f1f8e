/**
 The canonical text itself (policy/reviewed_iam.py, `json.dumps` with sorted keys, without blanks and in ASCII),
 character by character: what `Print` writes for every kind of value.
 */
module CanonicalText {
  import opened Options
  import opened Texts
  import opened Json
  import opened JsonText
  import opened CanonicalJson

  /** The parts one after the other, with one comma between neighbours. */
  function Joined(parts: seq<Text>): Text {
    if parts == [] then []
    else if |parts| == 1 then parts[0]
    else parts[0] + T(",") + Joined(parts[1..])
  }

  // ---------------------------------------------------------------- arrays and objects

  lemma {:induction false} ItemsJoined(items: seq<Tree>, parts: seq<Text>)
    requires |parts| == |items| && forall i :: 0 <= i < |items| ==> parts[i] == PrintTree(items[i])
    ensures PrintItems(items) == Joined(parts)
  {
    if |items| > 1 {
      ItemsJoined(items[1..], parts[1..]);
      assert T(",") == [COMMA];
    }
  }

  lemma {:induction false} PairsJoined(pairs: seq<Pair>, parts: seq<Text>)
    requires |parts| == |pairs| && forall i :: 0 <= i < |pairs| ==> parts[i] == PrintPair(pairs[i])
    ensures PrintPairs(pairs) == Joined(parts)
  {
    if |pairs| > 1 {
      PairsJoined(pairs[1..], parts[1..]);
      assert T(",") == [COMMA];
    }
  }

  /** An array: its items in order. */
  lemma {:induction false} ArrayText(items: seq<Value>)
    ensures Print(Arr(items)) == T("[") + Joined(seq(|items|, i requires 0 <= i < |items| => Print(items[i]))) + T("]")
  {
    var trees := TreeOf(Arr(items)).items;
    ItemsJoined(trees, seq(|items|, i requires 0 <= i < |items| => Print(items[i])));
    assert T("[") == [OPEN_ARRAY] && T("]") == [CLOSE_ARRAY];
  }

  /** One member: its quoted name, a colon and its value. */
  function MemberText(m: Members, name: Text): Text
    requires name in m
  {
    Print(Str(name)) + T(":") + Print(m[name])
  }

  /** Two lists in ascending order with the same elements are the same list. */
  lemma {:induction false} AscendingSame(a: seq<Text>, b: seq<Text>)
    requires Ascending(a) && Ascending(b) && forall k :: k in a <==> k in b
    ensures a == b
  {
    if a == [] {
      assert forall i :: 0 <= i < |b| ==> b[i] in a;
    } else {
      assert a[0] in b && b != [];
      FirstLeast(a, b[0]);
      FirstLeast(b, a[0]);
      if a[0] != b[0] {
        BelowAsymmetric(a[0], b[0]);
      }
      forall k ensures k in a[1..] <==> k in b[1..] {
        RestWithout(a, k);
        RestWithout(b, k);
      }
      AscendingSame(a[1..], b[1..]);
    }
  }

  lemma {:induction false} FirstLeast(a: seq<Text>, k: Text)
    requires a != [] && Ascending(a) && k in a
    ensures k == a[0] || Below(a[0], k)
  {
    var i :| 0 <= i < |a| && a[i] == k;
  }

  lemma {:induction false} RestWithout(a: seq<Text>, k: Text)
    requires a != [] && Ascending(a)
    ensures k in a[1..] <==> k in a && k != a[0]
  {
    if k in a[1..] {
      var i :| 0 <= i < |a| - 1 && a[1..][i] == k;
      assert Below(a[0], a[i + 1]);
      BelowIrreflexive(k);
    }
  }

  /**
   An object: its members in ascending order of their names, whatever list of them is given in that order.
   */
  lemma {:induction false} ObjectText(m: Members, names: seq<Text>)
    requires InOrder(names) && forall k :: k in names <==> k in m
    ensures forall i :: 0 <= i < |names| ==> names[i] in m
    ensures Print(Obj(m)) ==
      T("{") + Joined(seq(|names|, i requires 0 <= i < |names| && names[i] in m => MemberText(m, names[i]))) + T("}")
  {
    var keys := Sorted(m.Keys);
    OrderExactly(names);
    AscendingSame(names, keys);
    var pairs := TreeOf(Obj(m)).pairs;
    var parts := seq(|names|, i requires 0 <= i < |names| && names[i] in m => MemberText(m, names[i]));
    assert T("{") == [OPEN_OBJECT] && T("}") == [CLOSE_OBJECT] && T(":") == [COLON];
    forall i | 0 <= i < |names| ensures parts[i] == PrintPair(pairs[i]) {
      NamePrints(names[i]);
    }
    PairsJoined(pairs, parts);
  }

  lemma {:induction false} NamePrints(s: Text)
    ensures Print(Str(s)) == PrintString(s)
  {
  }

  /** `a` comes before `b`: at the first place where they differ it ends or has the smaller character. */
  predicate Precedes(a: Text, b: Text) {
    exists i :: 0 <= i <= |a| && i < |b| && a[..i] == b[..i] && (i == |a| || a[i] < b[i])
  }

  predicate InOrder(names: seq<Text>) {
    forall i, j :: 0 <= i < j < |names| ==> Precedes(names[i], names[j])
  }

  lemma {:induction false} SameStart(a: Text, b: Text, i: nat)
    requires i <= |a| && i <= |b| && a[..i] == b[..i]
    ensures i > 0 ==> a[0] == b[0]
  {
    if i > 0 {
      assert a[..i][0] == b[..i][0];
    }
  }

  lemma {:induction false} PrecedesExactly(a: Text, b: Text)
    ensures Precedes(a, b) <==> Below(a, b)
  {
    if a == [] {
      assert b != [] ==> a[..0] == b[..0];
    } else if b != [] {
      if a[0] == b[0] {
        PrecedesExactly(a[1..], b[1..]);
        if Precedes(a[1..], b[1..]) {
          var x, y := a[1..], b[1..];
          var i :| 0 <= i <= |x| && i < |y| && x[..i] == y[..i] && (i == |x| || x[i] < y[i]);
          assert a[..i + 1] == [a[0]] + a[1..][..i] && b[..i + 1] == [b[0]] + b[1..][..i];
        }
        if Precedes(a, b) {
          var i :| 0 <= i <= |a| && i < |b| && a[..i] == b[..i] && (i == |a| || a[i] < b[i]);
          assert i > 0;
          assert a[1..][..i - 1] == a[..i][1..] && b[1..][..i - 1] == b[..i][1..];
        }
      } else {
        if Precedes(a, b) {
          var i :| 0 <= i <= |a| && i < |b| && a[..i] == b[..i] && (i == |a| || a[i] < b[i]);
          SameStart(a, b, i);
        }
        if a[0] < b[0] {
          assert a[..0] == b[..0];
        }
      }
    }
  }

  lemma {:induction false} OrderExactly(names: seq<Text>)
    ensures InOrder(names) <==> Ascending(names)
  {
    hide Precedes, Below;
    forall i, j | 0 <= i < j < |names| ensures Precedes(names[i], names[j]) <==> Below(names[i], names[j]) {
      PrecedesExactly(names[i], names[j]);
    }
  }

  // ---------------------------------------------------------------- scalars

  lemma {:induction false} ConstantText()
    ensures Print(Null) == T("null") && Print(Bool(true)) == T("true") && Print(Bool(false)) == T("false")
  {
  }

  /** A float is written as it is spelled. */
  lemma {:induction false} FloatText(repr: Text, x: real)
    ensures Print(Float(repr, x)) == repr
  {
  }

  /** An integer: a minus sign if it is negative, and its decimal digits. */
  lemma {:induction false} IntegerText(n: nat)
    ensures n < 10 ==> Print(Int(n)) == [T("0123456789")[n]]
    ensures n >= 10 ==> Print(Int(n)) == Print(Int(n / 10)) + [T("0123456789")[n % 10]]
    ensures n > 0 ==> Print(Int(0 - n)) == T("-") + Print(Int(n))
  {
    assert T("-") == [MINUS];
    assert forall d: nat :: d < 10 ==> T("0123456789")[d] == 0x30 + d;
  }

  /** What a string literal holds between its quotes, character by character. */
  function CharacterText(c: CodePoint): Text {
    if c == 0x22 then T("\\\"")
    else if c == 0x5C then T("\\\\")
    else if c == 0x0A then T("\\n")
    else if c == 0x0D then T("\\r")
    else if c == 0x09 then T("\\t")
    else if c == 0x0C then T("\\f")
    else if c == 0x08 then T("\\b")
    else if 0x20 <= c < 0x7F then [c]
    else if c < 0x1_0000 then UnitText(c)
    else UnitText(0xD800 + (c - 0x1_0000) / 0x400) + UnitText(0xDC00 + (c - 0x1_0000) % 0x400)
  }

  function UnitText(u: nat): Text
    requires u < 0x1_0000
  {
    var digits := T("0123456789abcdef");
    T("\\u") + [digits[u / 0x1000], digits[u / 0x100 % 16], digits[u / 0x10 % 16], digits[u % 16]]
  }

  function InsideText(s: Text): Text {
    if s == [] then [] else CharacterText(s[0]) + InsideText(s[1..])
  }

  lemma {:induction false} HexDigits(n: nat)
    requires n < 16
    ensures T("0123456789abcdef")[n] == HexDigit(n)
  {
  }

  lemma {:induction false} UnitExactly(u: nat)
    requires u < 0x1_0000
    ensures UnitText(u) == EscapeUnit(u)
  {
    HexDigits(u / 0x1000);
    HexDigits(u / 0x100 % 16);
    HexDigits(u / 0x10 % 16);
    HexDigits(u % 16);
    assert T("\\u") == [BACKSLASH, 0x75];
    hide HexDigit;
  }

  lemma {:induction false} CharacterExactly(c: CodePoint)
    ensures CharacterText(c) == Escape(c)
  {
    hide UnitText, EscapeUnit;
    if c < 0x1_0000 {
      UnitExactly(c);
    } else {
      UnitExactly(0xD800 + (c - 0x1_0000) / 0x400);
      UnitExactly(0xDC00 + (c - 0x1_0000) % 0x400);
    }
  }

  /** A string: its characters between quotes, each as `CharacterText` has it. */
  lemma {:induction false} StringText(s: Text)
    ensures Print(Str(s)) == T("\"") + InsideText(s) + T("\"")
  {
    InsideExactly(s);
    assert T("\"") == [QUOTE];
  }

  lemma {:induction false} InsideExactly(s: Text)
    ensures InsideText(s) == EscapeAll(s)
  {
    hide CharacterText, Escape;
    if s != [] {
      CharacterExactly(s[0]);
      InsideExactly(s[1..]);
    }
  }

  /** Printable ASCII without quotes and backslashes stands for itself. */
  lemma {:induction false} PlainText(s: Text)
    requires forall i :: 0 <= i < |s| ==> 0x20 <= s[i] <= 0x7E && s[i] != 0x22 && s[i] != 0x5C
    ensures Print(Str(s)) == T("\"") + s + T("\"")
  {
    StringText(s);
    PlainInside(s);
  }

  lemma {:induction false} PlainInside(s: Text)
    requires forall i :: 0 <= i < |s| ==> 0x20 <= s[i] <= 0x7E && s[i] != 0x22 && s[i] != 0x5C
    ensures InsideText(s) == s
  {
    if s != [] {
      PlainInside(s[1..]);
    }
  }
}
