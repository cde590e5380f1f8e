/**
 Strict documents and their canonical form (policy/reviewed_iam.py, and the same hooks in
 scripts/poc_contract.py): a duplicate member at any depth is an error, and the canonical text sorts
 members at every depth.
 */
module CanonicalJson {
  import opened Options
  import opened Texts
  import opened Json
  import opened JsonText

  // ---------------------------------------------------------------- from trees to values

  function Names(pairs: seq<Pair>): set<Text> {
    set i | 0 <= i < |pairs| :: pairs[i].name
  }

  predicate DistinctNames(pairs: seq<Pair>) {
    forall i, j :: 0 <= i < j < |pairs| ==> pairs[i].name != pairs[j].name
  }

  /** No object at any depth lists a member twice. */
  predicate NoDuplicates(t: Tree) {
    match t
    case Leaf(_) => true
    case Items(items) => forall i :: 0 <= i < |items| ==> NoDuplicates(items[i])
    case Pairs(pairs) =>
      DistinctNames(pairs) && forall i :: 0 <= i < |pairs| ==> NoDuplicates(pairs[i].tree)
  }

  /** The value a duplicate-free tree denotes. */
  function Fold(t: Tree): Value
    requires NoDuplicates(t)
  {
    match t
    case Leaf(v) => v
    case Items(items) => Arr(seq(|items|, i requires 0 <= i < |items| => Fold(items[i])))
    case Pairs(pairs) => Obj(FoldPairs(pairs))
  }

  function IndexOf(pairs: seq<Pair>, name: Text): (i: nat)
    requires name in Names(pairs)
    ensures i < |pairs| && pairs[i].name == name
  {
    if pairs[0].name == name then 0 else
    assert exists i :: 0 <= i < |pairs| && pairs[i].name == name;
    assert name in Names(pairs[1..]) by {
      var i :| 0 <= i < |pairs| && pairs[i].name == name;
      assert pairs[1..][i - 1] == pairs[i];
    }
    1 + IndexOf(pairs[1..], name)
  }

  function FoldPairs(pairs: seq<Pair>): (m: Members)
    requires DistinctNames(pairs) && forall i :: 0 <= i < |pairs| ==> NoDuplicates(pairs[i].tree)
    ensures m.Keys == Names(pairs)
    ensures forall i :: 0 <= i < |pairs| ==> pairs[i].name in m && m[pairs[i].name] == Fold(pairs[i].tree)
  {
    map name | name in Names(pairs) :: Fold(pairs[IndexOf(pairs, name)].tree)
  }

  /** The member list a pairs hook receives, its values already converted. */
  type Entries = seq<(Text, Value)>

  predicate DistinctKeys(entries: Entries) {
    forall i, j :: 0 <= i < j < |entries| ==> entries[i].0 != entries[j].0
  }

  /** The pairs hook: a dict of the listed members, or an error as soon as a name repeats. */
  method UniqueMembers(entries: Entries) returns (r: Option<Members>)
    ensures r.Some? <==> DistinctKeys(entries)
    ensures r.Some? ==> forall k :: k in r.value <==> exists i :: 0 <= i < |entries| && entries[i].0 == k
    ensures r.Some? ==> forall i :: 0 <= i < |entries| ==>
      entries[i].0 in r.value && r.value[entries[i].0] == entries[i].1
  {
    var result: Members := map[];
    for n := 0 to |entries|
      invariant DistinctKeys(entries[..n])
      invariant forall k :: k in result <==> exists i :: 0 <= i < n && entries[i].0 == k
      invariant forall i :: 0 <= i < n ==> entries[i].0 in result && result[entries[i].0] == entries[i].1
    {
      var (key, value) := entries[n];
      if key in result {
        return None;
      }
      result := result[key := value];
    }
    assert entries[..|entries|] == entries;
    return Some(result);
  }

  /** What the hooks make of a tree: they see every object, so one repeated name anywhere is fatal. */
  function Collapse(t: Tree): Option<Value> {
    if NoDuplicates(t) then Some(Fold(t)) else None
  }

  /** `json.loads` with the duplicate and constant hooks. */
  function Loads(scan: FloatScan, t: Text): Option<Value> {
    var (tree, rest) :- ReadTree(Scalars(scan), SkipSpace(t));
    if SkipSpace(rest) != [] then None else Collapse(tree)
  }

  // ---------------------------------------------------------------- from values to trees

  /** The tree `json.dumps(v, sort_keys=True)` writes. */
  function TreeOf(v: Value): Tree {
    match v
    case Arr(items) => Items(seq(|items|, i requires 0 <= i < |items| => TreeOf(items[i])))
    case Obj(members) =>
      var keys := Sorted(members.Keys);
      assert forall i :: 0 <= i < |keys| ==> keys[i] in keys;
      Pairs(seq(|keys|, i requires 0 <= i < |keys| => Pair(keys[i], TreeOf(members[keys[i]]))))
    case _ => Leaf(v)
  }

  /** `json.dumps(v, sort_keys=True, separators=(",", ":"), allow_nan=False)`. */
  function Print(v: Value): Text {
    PrintTree(TreeOf(v))
  }

  /** Every float in `v` is one the runtime can hold. */
  predicate FloatsOk(scan: FloatScan, v: Value) {
    match v
    case Float(repr, x) => FloatOk(scan, repr, x)
    case Arr(items) => forall i :: 0 <= i < |items| ==> FloatsOk(scan, items[i])
    case Obj(members) => forall k :: k in members ==> FloatsOk(scan, members[k])
    case _ => true
  }

  /** No string or member name anywhere in `v` holds a surrogate pair as two characters. */
  predicate Whole(v: Value) {
    match v
    case Str(s) => Unsplit(s)
    case Arr(items) => forall i :: 0 <= i < |items| ==> Whole(items[i])
    case Obj(members) => forall k :: k in members ==> Unsplit(k) && Whole(members[k])
    case _ => true
  }

  predicate WholeTree(t: Tree) {
    match t
    case Leaf(v) => Whole(v)
    case Items(items) => forall i :: 0 <= i < |items| ==> WholeTree(items[i])
    case Pairs(pairs) => forall i :: 0 <= i < |pairs| ==> Unsplit(pairs[i].name) && WholeTree(pairs[i].tree)
  }

  // ---------------------------------------------------------------- round trip

  lemma {:induction false} TreeOfPrintable(scan: FloatScan, v: Value)
    requires FloatsOk(scan, v)
    ensures Printable(scan, TreeOf(v))
  {
    match v
    case Arr(items) =>
      forall i | 0 <= i < |items| ensures Printable(scan, TreeOf(items[i])) {
        TreeOfPrintable(scan, items[i]);
      }
    case Obj(members) =>
      var keys := Sorted(members.Keys);
      forall i | 0 <= i < |keys| ensures keys[i] in members && Printable(scan, TreeOf(members[keys[i]])) {
        assert keys[i] in keys;
        TreeOfPrintable(scan, members[keys[i]]);
      }
    case _ =>
  }

  lemma {:induction false} AscendingDistinct(pairs: seq<Pair>, keys: seq<Text>)
    requires Ascending(keys) && |pairs| == |keys| && forall i :: 0 <= i < |keys| ==> pairs[i].name == keys[i]
    ensures DistinctNames(pairs)
  {
    forall i, j | 0 <= i < j < |pairs| ensures pairs[i].name != pairs[j].name {
      BelowIrreflexive(keys[i]);
      assert Below(keys[i], keys[j]);
    }
  }

  /** A canonical tree denotes the value it was made from: no member is lost, added or repeated. */
  lemma {:induction false} TreeOfFolds(v: Value)
    ensures NoDuplicates(TreeOf(v)) && Fold(TreeOf(v)) == v
  {
    match v
    case Arr(items) =>
      forall i | 0 <= i < |items| ensures NoDuplicates(TreeOf(items[i])) && Fold(TreeOf(items[i])) == items[i] {
        TreeOfFolds(items[i]);
      }
      assert Fold(TreeOf(v)).items == items;
    case Obj(members) =>
      var keys, pairs := Sorted(members.Keys), TreeOf(v).pairs;
      forall i | 0 <= i < |keys|
        ensures keys[i] in members && pairs[i] == Pair(keys[i], TreeOf(members[keys[i]]))
        ensures NoDuplicates(pairs[i].tree) && Fold(pairs[i].tree) == members[keys[i]]
      {
        assert keys[i] in keys;
        TreeOfFolds(members[keys[i]]);
      }
      AscendingDistinct(pairs, keys);
      FoldsTo(pairs, keys, members);
    case _ =>
  }

  lemma {:induction false} FoldsTo(pairs: seq<Pair>, keys: seq<Text>, members: Members)
    requires DistinctNames(pairs) && |pairs| == |keys| && forall k :: k in keys <==> k in members
    requires forall i :: 0 <= i < |keys| ==> keys[i] in members && pairs[i].name == keys[i]
    requires forall i :: 0 <= i < |keys| ==>
      NoDuplicates(pairs[i].tree) && Fold(pairs[i].tree) == members[keys[i]]
    ensures FoldPairs(pairs) == members
  {
  }

  lemma {:induction false} JoinItemsAt(items: seq<Tree>)
    ensures |JoinItems(items)| == |items|
    ensures forall i :: 0 <= i < |items| ==> JoinItems(items)[i] == JoinTree(items[i])
  {
    if items != [] {
      JoinItemsAt(items[1..]);
    }
  }

  lemma {:induction false} JoinPairsAt(pairs: seq<Pair>)
    ensures |JoinPairs(pairs)| == |pairs|
    ensures forall i :: 0 <= i < |pairs| ==>
      JoinPairs(pairs)[i] == Pair(Join(pairs[i].name), JoinTree(pairs[i].tree))
  {
    if pairs != [] {
      JoinPairsAt(pairs[1..]);
    }
  }

  predicate Scalar(t: Tree) {
    match t
    case Leaf(v) => !v.Arr? && !v.Obj?
    case Items(items) => forall i :: 0 <= i < |items| ==> Scalar(items[i])
    case Pairs(pairs) => forall i :: 0 <= i < |pairs| ==> Scalar(pairs[i].tree)
  }

  /** Merging makes a tree whole, and changes it only if it was not. */
  lemma {:induction false} JoinWhole(t: Tree)
    requires Scalar(t)
    ensures WholeTree(JoinTree(t)) && Scalar(JoinTree(t))
    ensures WholeTree(t) ==> JoinTree(t) == t
  {
    match t
    case Leaf(v) =>
      if v.Str? {
        JoinUnsplit(v.s);
      }
    case Items(items) =>
      JoinItemsAt(items);
      forall i | 0 <= i < |items|
        ensures WholeTree(JoinTree(items[i])) && Scalar(JoinTree(items[i]))
        ensures WholeTree(items[i]) ==> JoinTree(items[i]) == items[i]
      {
        JoinWhole(items[i]);
      }
      assert WholeTree(t) ==> JoinItems(items) == items;
    case Pairs(pairs) =>
      JoinPairsAt(pairs);
      forall i | 0 <= i < |pairs|
        ensures Unsplit(Join(pairs[i].name)) && WholeTree(JoinTree(pairs[i].tree)) && Scalar(JoinTree(pairs[i].tree))
        ensures Unsplit(pairs[i].name) && WholeTree(pairs[i].tree) ==>
          Pair(Join(pairs[i].name), JoinTree(pairs[i].tree)) == pairs[i]
      {
        JoinUnsplit(pairs[i].name);
        JoinWhole(pairs[i].tree);
      }
      assert WholeTree(t) ==> JoinPairs(pairs) == pairs;
  }

  lemma {:induction false} TreeOfScalar(v: Value)
    ensures Scalar(TreeOf(v))
    ensures Whole(v) ==> WholeTree(TreeOf(v))
  {
    match v
    case Arr(items) =>
      forall i | 0 <= i < |items|
        ensures Scalar(TreeOf(items[i])) && (Whole(items[i]) ==> WholeTree(TreeOf(items[i])))
      {
        TreeOfScalar(items[i]);
      }
    case Obj(members) =>
      var keys := Sorted(members.Keys);
      forall i | 0 <= i < |keys|
        ensures keys[i] in members && Scalar(TreeOf(members[keys[i]]))
        ensures Whole(members[keys[i]]) ==> WholeTree(TreeOf(members[keys[i]]))
      {
        assert keys[i] in keys;
        TreeOfScalar(members[keys[i]]);
      }
    case _ =>
  }

  /** Whole trees denote whole values. */
  lemma {:induction false} FoldWhole(t: Tree)
    requires NoDuplicates(t) && WholeTree(t)
    ensures Whole(Fold(t))
  {
    match t
    case Leaf(_) =>
    case Items(items) =>
      forall i | 0 <= i < |items| ensures Whole(Fold(items[i])) {
        FoldWhole(items[i]);
      }
    case Pairs(pairs) =>
      var m := FoldPairs(pairs);
      forall k | k in m ensures Unsplit(k) && Whole(m[k]) {
        var i :| 0 <= i < |pairs| && pairs[i].name == k;
        FoldWhole(pairs[i].tree);
        assert m[pairs[i].name] == Fold(pairs[i].tree);
      }
  }

  /** What the strict reader makes of any printed value. */
  lemma {:induction false} LoadsPrint(scan: FloatScan, v: Value)
    requires FloatsOk(scan, v)
    ensures Loads(scan, Print(v)) == Collapse(JoinTree(TreeOf(v)))
  {
    var t := TreeOf(v);
    TreeOfPrintable(scan, v);
    ScalarsFaithful(scan);
    TreeReads(scan, Scalars(scan), t, []);
    FirstCharacter(scan, t);
    assert PrintTree(t) + [] == PrintTree(t);
    assert SkipSpace(Print(v)) == Print(v);
  }

  /**
   Strict reading undoes canonical printing for exactly the values whose strings hold no split
   surrogate pair.
   */
  lemma {:induction false} CanonicalRoundTrip(scan: FloatScan, v: Value)
    requires FloatsOk(scan, v)
    ensures Loads(scan, Print(v)) == Some(v) <==> Whole(v)
  {
    LoadsPrint(scan, v);
    TreeOfScalar(v);
    JoinWhole(TreeOf(v));
    if Whole(v) {
      TreeOfFolds(v);
    }
    if Loads(scan, Print(v)) == Some(v) {
      FoldWhole(JoinTree(TreeOf(v)));
    }
  }

  /** Two whole values print alike only if they are the same value: member order is not observable. */
  lemma {:induction false} PrintInjective(scan: FloatScan, v: Value, w: Value)
    requires FloatsOk(scan, v) && FloatsOk(scan, w) && Whole(v) && Whole(w)
    ensures Print(v) == Print(w) <==> v == w
  {
    CanonicalRoundTrip(scan, v);
    CanonicalRoundTrip(scan, w);
  }

  /** Merged trees are written with the same text. */
  lemma {:induction false} JoinedPrints(t: Tree)
    ensures PrintTree(JoinTree(t)) == PrintTree(t)
    decreases t, 0
  {
    match t
    case Leaf(v) =>
      if v.Str? {
        JoinPrints(v.s);
      }
    case Items(items) => JoinedItemsPrint(items);
    case Pairs(pairs) => JoinedPairsPrint(pairs);
  }

  lemma {:induction false} JoinedItemsPrint(items: seq<Tree>)
    ensures PrintItems(JoinItems(items)) == PrintItems(items)
  {
    if items != [] {
      JoinItemsAt(items);
      JoinedPrints(items[0]);
      JoinedItemsPrint(items[1..]);
      assert JoinItems(items)[1..] == JoinItems(items[1..]);
    }
  }

  lemma {:induction false} JoinedPairsPrint(pairs: seq<Pair>)
    ensures PrintPairs(JoinPairs(pairs)) == PrintPairs(pairs)
  {
    if pairs != [] {
      JoinPairsAt(pairs);
      JoinPrints(pairs[0].name);
      JoinedPrints(pairs[0].tree);
      JoinedPairsPrint(pairs[1..]);
      assert JoinPairs(pairs)[1..] == JoinPairs(pairs[1..]);
    }
  }

  /** Any two values print alike exactly when they differ only in how surrogate pairs are held. */
  lemma {:induction false} PrintExact(scan: FloatScan, v: Value, w: Value)
    requires FloatsOk(scan, v) && FloatsOk(scan, w)
    ensures Print(v) == Print(w) <==> JoinTree(TreeOf(v)) == JoinTree(TreeOf(w))
  {
    hide TreeOf, PrintTree, JoinTree;
    JoinedPrints(TreeOf(v));
    JoinedPrints(TreeOf(w));
    PrintedReads(scan, v);
    PrintedReads(scan, w);
  }

  lemma {:induction false} PrintedReads(scan: FloatScan, v: Value)
    requires FloatsOk(scan, v)
    ensures ReadTree(Scalars(scan), Print(v)) == Some((JoinTree(TreeOf(v)), []))
  {
    TreeOfPrintable(scan, v);
    ScalarsFaithful(scan);
    TreeReads(scan, Scalars(scan), TreeOf(v), []);
    assert PrintTree(TreeOf(v)) + [] == Print(v);
  }

  /** Without wholeness the canonical text is ambiguous: one character and its two halves. */
  lemma {:induction false} SplitPairCollides()
    ensures var v, w := Str([0x1_F600]), Str([0xD83D, 0xDE00]);
      v != w && Print(v) == Print(w) && Whole(v) && !Whole(w)
  {
    var s, t: Text := [0x1_F600], [0xD83D, 0xDE00];
    assert Astral(0xD83D, 0xDE00) == 0x1_F600;
    assert t[2..] == [] && s[1..] == [];
    assert Join(t) == [0x1_F600] + Join([]) == s;
    assert Join(s) == [0x1_F600] + Join([]);
    PrintStringInjective(s, t);
    assert High(t[0]) && Low(t[0 + 1]);
  }
}
