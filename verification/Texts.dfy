/** Optional values: the result of a computation the program ends with an exception. */
module Options {
  datatype Option<+T> = None | Some(value: T) {
    predicate IsFailure() {
      None?
    }

    function PropagateFailure<U>(): Option<U>
      requires None?
    {
      None
    }

    function Extract(): T
      requires Some?
    {
      value
    }
  }
}

/** Byte strings, and what a cryptographic hash is worth: whatever it confuses is a collision. */
module ByteStrings {
  type Byte = n: int | 0 <= n < 256
  type Bytes = seq<Byte>

  /** `a` and `b` are a collision of `sha`. */
  predicate Collide<D(==), H(==)>(sha: D -> H, a: D, b: D) {
    a != b && sha(a) == sha(b)
  }
}

/**
 Python strings. A `str` is a sequence of code points in which surrogates are ordinary members,
 so Dafny's `char` (which excludes them) is too small a type for it.
 */
module Texts {
  type CodePoint = n: int | 0 <= n < 0x11_0000
  type Text = seq<CodePoint>

  /** The text of a literal. */
  function T(s: string): (t: Text)
    ensures |t| == |s|
    ensures forall i :: 0 <= i < |s| ==> t[i] == s[i] as int
  {
    seq(|s|, i requires 0 <= i < |s| => s[i] as int)
  }

  /** The characters `str.isspace` accepts. */
  predicate IsSpace(c: CodePoint) {
    || 0x09 <= c <= 0x0D || 0x1C <= c <= 0x20 || c == 0x85 || c == 0xA0 || c == 0x1680
    || 0x2000 <= c <= 0x200A || c == 0x2028 || c == 0x2029 || c == 0x202F || c == 0x205F || c == 0x3000
  }

  /** The white space characters of `str.isspace`, one by one. */
  lemma {:induction false} SpacesAre(c: CodePoint)
    ensures IsSpace(c) <==> c in [
      9, 10, 11, 12, 13, 28, 29, 30, 31, 32, 133, 160, 5760, 8192, 8193, 8194, 8195, 8196, 8197, 8198, 8199, 8200,
      8201, 8202, 8232, 8233, 8239, 8287, 12288]
  {
  }

  /** `t == t.strip()` and `t` is not blank. */
  predicate Trimmed(t: Text) {
    t != [] && !IsSpace(t[0]) && !IsSpace(t[|t| - 1])
  }

  /** Python's order on strings: code point by code point, a proper prefix first. */
  predicate Below(a: Text, b: Text) {
    b != [] && (a == [] || a[0] < b[0] || (a[0] == b[0] && Below(a[1..], b[1..])))
  }

  lemma {:induction false} BelowIrreflexive(a: Text)
    ensures !Below(a, a)
  {
    if a != [] {
      BelowIrreflexive(a[1..]);
    }
  }

  lemma {:induction false} BelowTransitive(a: Text, b: Text, c: Text)
    requires Below(a, b) && Below(b, c)
    ensures Below(a, c)
  {
    if a != [] && a[0] == b[0] == c[0] {
      BelowTransitive(a[1..], b[1..], c[1..]);
    }
  }

  lemma {:induction false} BelowTotal(a: Text, b: Text)
    ensures a == b || Below(a, b) || Below(b, a)
  {
    if a != [] && b != [] && a[0] == b[0] {
      BelowTotal(a[1..], b[1..]);
      assert a == [a[0]] + a[1..] && b == [b[0]] + b[1..];
    }
  }

  lemma {:induction false} BelowAsymmetric(a: Text, b: Text)
    requires Below(a, b)
    ensures !Below(b, a)
  {
    if Below(b, a) {
      BelowTransitive(a, b, a);
      BelowIrreflexive(a);
    }
  }

  predicate IsLeast(s: set<Text>, k: Text) {
    k in s && forall x :: x in s ==> x == k || Below(k, x)
  }

  lemma {:induction false} LeastExists(s: set<Text>)
    requires s != {}
    ensures exists k :: IsLeast(s, k)
  {
    var x :| x in s;
    if s == {x} {
      assert IsLeast(s, x);
    } else {
      LeastExists(s - {x});
      var k :| IsLeast(s - {x}, k);
      BelowTotal(x, k);
      if Below(x, k) {
        forall y | y in s ensures y == x || Below(x, y) {
          if y != x && y != k {
            BelowTransitive(x, k, y);
          }
        }
        assert IsLeast(s, x);
      } else {
        assert IsLeast(s, k);
      }
    }
  }

  function Least(s: set<Text>): (k: Text)
    requires s != {}
    ensures IsLeast(s, k)
  {
    LeastExists(s);
    assert forall a, b :: IsLeast(s, a) && IsLeast(s, b) && a != b ==> Below(a, b) && Below(b, a);
    assert forall a, b :: IsLeast(s, a) && IsLeast(s, b) ==> a == b by {
      forall a, b | IsLeast(s, a) && IsLeast(s, b) ensures a == b {
        if a != b {
          BelowAsymmetric(a, b);
        }
      }
    }
    var k :| k in s && IsLeast(s, k);
    k
  }

  predicate Ascending(keys: seq<Text>) {
    forall i, j :: 0 <= i < j < |keys| ==> Below(keys[i], keys[j])
  }

  /** `sorted(s)`. */
  function Sorted(s: set<Text>): (keys: seq<Text>)
    ensures |keys| == |s|
    ensures forall k :: k in keys <==> k in s
    ensures Ascending(keys)
  {
    if s == {} then [] else
    var k := Least(s);
    var rest := Sorted(s - {k});
    assert forall i :: 0 <= i < |rest| ==> rest[i] in rest;
    [k] + rest
  }
}
