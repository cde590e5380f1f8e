/**
 JSON values as the Python programs hold them: dicts are maps from strings, and `==` compares
 booleans and numbers by numeric value.
 */
module Json {
  import opened Texts
  import opened Options

  type Members = map<Text, Value>

  /** A float carries its shortest decimal form and the number it stands for. */
  datatype Value =
    | Null
    | Bool(b: bool)
    | Int(n: int)
    | Float(repr: Text, value: real)
    | Str(s: Text)
    | Arr(items: seq<Value>)
    | Obj(members: Members)

  /** The class of `v` under Python equality: `True == 1 == 1.0`. */
  function Loose(v: Value): Value {
    match v
    case Null => v
    case Bool(b) => Int(if b then 1 else 0)
    case Int(_) => v
    case Float(_, x) => if x == x.Floor as real then Int(x.Floor) else Float([], x)
    case Str(_) => v
    case Arr(items) => Arr(seq(|items|, i requires 0 <= i < |items| => Loose(items[i])))
    case Obj(members) => Obj(map k | k in members :: Loose(members[k]))
  }

  /** Python's `a == b` on JSON values. */
  predicate PyEq(a: Value, b: Value) {
    Loose(a) == Loose(b)
  }

  /** Python's `a == b` on dicts. */
  predicate SameMembers(a: Members, b: Members) {
    PyEq(Obj(a), Obj(b))
  }

  lemma {:induction false} SameMembersPointwise(a: Members, b: Members)
    ensures SameMembers(a, b) <==> a.Keys == b.Keys && forall k :: k in a ==> k in b && PyEq(a[k], b[k])
  {
    var la := map k | k in a :: Loose(a[k]);
    var lb := map k | k in b :: Loose(b[k]);
    assert la.Keys == a.Keys && lb.Keys == b.Keys;
    if la == lb {
      forall k | k in a ensures k in b && PyEq(a[k], b[k]) {
        assert la[k] == lb[k];
      }
    }
  }

  /** Python's truth value of a JSON value. */
  predicate Truthy(v: Value) {
    match v
    case Null => false
    case Bool(b) => b
    case Int(n) => n != 0
    case Float(_, x) => x != 0.0
    case Str(s) => s != []
    case Arr(items) => items != []
    case Obj(members) => members != map[]
  }

  /** `dict(v)`: a dict is copied; a list of two-item lists (or two-letter strings) becomes one. */
  function AsDict(v: Value): Option<Members> {
    match v
    case Obj(members) => Some(members)
    case Arr(items) => DictOf(items)
    case Str(s) => if s == [] then Some(map[]) else None
    case _ => None
  }

  function DictOf(items: seq<Value>): Option<Members> {
    if items == [] then Some(map[])
    else
      var front :- DictOf(items[..|items| - 1]);
      match items[|items| - 1]
      case Arr(pair) => if |pair| == 2 && pair[0].Str? then Some(front[pair[0].s := pair[1]]) else None
      case Str(s) => if |s| == 2 then Some(front[[s[0]] := Str([s[1]])]) else None
      case _ => None
  }

  /** `if key in m: require(m.pop(key) == expected)`, on a copy. */
  function Pop(m: Members, key: Text, expected: Value): Option<Members> {
    if key !in m then Some(m)
    else if PyEq(m[key], expected) then Some(m - {key})
    else None
  }

  /** Equality of two results, a failure being equal to nothing but a failure. */
  predicate SameResult(a: Option<Members>, b: Option<Members>) {
    match (a, b)
    case (None, None) => true
    case (Some(x), Some(y)) => SameMembers(x, y)
    case _ => false
  }

  // ---------------------------------------------------------------- equality, case by case

  function Number(v: Value): Option<real> {
    match v
    case Bool(b) => Some(if b then 1.0 else 0.0)
    case Int(n) => Some(n as real)
    case Float(_, x) => Some(x)
    case _ => None
  }

  /** Booleans, integers and floats compare as numbers, strings as they are, lists and dicts item by item. */
  predicate Equal(a: Value, b: Value) {
    match (a, b)
    case (Null, Null) => true
    case (Str(s), Str(t)) => s == t
    case (Arr(x), Arr(y)) => |x| == |y| && forall i :: 0 <= i < |x| ==> Equal(x[i], y[i])
    case (Obj(m), Obj(n)) => m.Keys == n.Keys && forall k :: k in m ==> Equal(m[k], n[k])
    case _ => Number(a).Some? && Number(b).Some? && Number(a).value == Number(b).value
  }

  lemma {:induction false} NumbersEqual(a: Value, b: Value)
    requires Number(a).Some? && Number(b).Some?
    ensures PyEq(a, b) <==> Number(a).value == Number(b).value
  {
  }

  /** Python's equality, case by case. */
  lemma {:induction false} EqualExactly(a: Value, b: Value)
    ensures PyEq(a, b) <==> Equal(a, b)
  {
    match (a, b)
    case (Arr(x), Arr(y)) =>
      forall i | 0 <= i < |x| && i < |y| ensures PyEq(x[i], y[i]) <==> Equal(x[i], y[i]) {
        EqualExactly(x[i], y[i]);
      }
      ItemsEqual(x, y);
      assert Equal(a, b) <==> |x| == |y| && forall i :: 0 <= i < |x| && i < |y| ==> Equal(x[i], y[i]);
      hide PyEq, Equal;
    case (Obj(m), Obj(n)) =>
      SameMembersPointwise(m, n);
      forall k | k in m && k in n ensures PyEq(m[k], n[k]) <==> Equal(m[k], n[k]) {
        EqualExactly(m[k], n[k]);
      }
      hide PyEq;
    case _ =>
      if Number(a).Some? && Number(b).Some? {
        NumbersEqual(a, b);
      }
  }

  lemma {:induction false} ItemsEqual(x: seq<Value>, y: seq<Value>)
    ensures PyEq(Arr(x), Arr(y)) <==> |x| == |y| && forall i :: 0 <= i < |x| && i < |y| ==> PyEq(x[i], y[i])
  {
    var a, b := Loose(Arr(x)).items, Loose(Arr(y)).items;
    assert |a| == |x| && |b| == |y|;
    if PyEq(Arr(x), Arr(y)) {
      forall i | 0 <= i < |x| && i < |y| ensures PyEq(x[i], y[i]) {
        assert a[i] == b[i];
      }
    }
  }

  /** What counts as false. */
  lemma {:induction false} FalsyExactly(v: Value)
    ensures !Truthy(v) <==>
      || v == Null || v == Bool(false) || v == Int(0) || (v.Float? && v.value == 0.0)
      || v == Str([]) || v == Arr([]) || v == Obj(map[])
  {
  }

  // ---------------------------------------------------------------- dicts of pairs

  /** A list of a string and a value, or a string of two characters. */
  predicate IsPair(v: Value) {
    (v.Arr? && |v.items| == 2 && v.items[0].Str?) || (v.Str? && |v.s| == 2)
  }

  function PairName(v: Value): Text
    requires IsPair(v)
  {
    if v.Arr? then v.items[0].s else [v.s[0]]
  }

  function PairValue(v: Value): Value
    requires IsPair(v)
  {
    if v.Arr? then v.items[1] else Str([v.s[1]])
  }

  /** Item number `i` is the last pair of its name. */
  predicate LastPair(items: seq<Value>, i: int) {
    && 0 <= i < |items| && IsPair(items[i])
    && forall j :: i < j < |items| && IsPair(items[j]) ==> PairName(items[j]) != PairName(items[i])
  }

  predicate AllPairs(items: seq<Value>) {
    forall i :: 0 <= i < |items| ==> IsPair(items[i])
  }

  predicate HasPair(items: seq<Value>, k: Text) {
    exists i :: 0 <= i < |items| && IsPair(items[i]) && PairName(items[i]) == k
  }

  /** The dict has the names of the pairs, each with the value of its last pair. */
  ghost predicate IsDictOf(m: Members, items: seq<Value>) {
    && (forall k :: k in m <==> HasPair(items, k))
    && (forall i :: LastPair(items, i) ==>
      PairName(items[i]) in m && m[PairName(items[i])] == PairValue(items[i]))
  }

  /** A list becomes a dict exactly if all its items are pairs; the last pair of a name counts. */
  lemma {:induction false} DictExactly(items: seq<Value>)
    ensures AsDict(Arr(items)).Some? <==> AllPairs(items)
    ensures AsDict(Arr(items)).Some? ==> IsDictOf(AsDict(Arr(items)).value, items)
  {
    hide IsPair, PairName, PairValue, IsDictOf;
    if items == [] {
      NoPairs();
    } else {
      var front, last := items[..|items| - 1], items[|items| - 1];
      DictExactly(front);
      DictStep(items, front, last);
      assert items == front + [last];
      hide DictOf;
      if DictOf(items).Some? {
        DictExtends(DictOf(front).value, items, front, last);
      }
    }
  }

  lemma {:induction false} NoPairs()
    ensures IsDictOf(map[], [])
  {
  }

  lemma {:induction false} DictStep(items: seq<Value>, front: seq<Value>, last: Value)
    requires items != [] && front == items[..|items| - 1] && last == items[|items| - 1]
    ensures DictOf(items) ==
      if DictOf(front).Some? && IsPair(last) then Some(DictOf(front).value[PairName(last) := PairValue(last)]) else None
  {
  }

  lemma {:induction false} DictExtends(m: Members, items: seq<Value>, front: seq<Value>, last: Value)
    requires items == front + [last] && IsDictOf(m, front) && IsPair(last)
    ensures IsDictOf(m[PairName(last) := PairValue(last)], items)
  {
    hide IsPair, PairName, PairValue, HasPair;
    var n, now := |front|, m[PairName(last) := PairValue(last)];
    assert items[n] == last && forall i :: 0 <= i < n ==> items[i] == front[i];
    forall k ensures HasPair(items, k) <==> HasPair(front, k) || k == PairName(last) {
      HasPairStep(items, front, last, k);
    }
    forall i | LastPair(items, i)
      ensures PairName(items[i]) in now && now[PairName(items[i])] == PairValue(items[i])
    {
      if i < n {
        assert PairName(items[n]) != PairName(items[i]);
        assert LastPair(front, i);
      }
    }
  }

  lemma {:induction false} HasPairStep(items: seq<Value>, front: seq<Value>, last: Value, k: Text)
    requires items == front + [last] && IsPair(last)
    ensures HasPair(items, k) <==> HasPair(front, k) || k == PairName(last)
  {
    hide IsPair, PairName;
    var n := |front|;
    assert items[n] == last && forall i :: 0 <= i < n ==> items[i] == front[i];
    if HasPair(items, k) {
      var i :| 0 <= i < |items| && IsPair(items[i]) && PairName(items[i]) == k;
      assert i < n ==> IsPair(front[i]) && PairName(front[i]) == k;
    }
    if HasPair(front, k) {
      var i :| 0 <= i < |front| && IsPair(front[i]) && PairName(front[i]) == k;
      assert IsPair(items[i]) && PairName(items[i]) == k;
    }
  }
}
