/**
 Checkpoints and their inventories once more, in the names the documents use (`_resource` and `_inventory` in
 scripts/poc_backend_observer.py).
 */
module BackendReference {
  import opened ByteStrings
  import opened Options
  import opened Texts
  import opened Json
  import opened CanonicalJson
  import opened BackendListing
  import opened BackendSnapshot

  function Item(row: Members, name: string): Value {
    if T(name) in row then row[T(name)] else Null
  }

  /** A resource of this stack, not pending deletion or replacement, with a type; a provider is sound. */
  predicate SoundResource(o: Observer, row: Members, legacy: bool) {
    && Item(row, "urn").Str? && o.urnPrefix <= Item(row, "urn").s
    && Item(row, "type").Str? && Item(row, "type").s != []
    && !Truthy(Item(row, "delete")) && !Truthy(Item(row, "pendingReplacement"))
    && (Item(row, "type") == Str(o.providerType) ==> o.providerOk(row, legacy))
  }

  /** A version's bytes are a sound checkpoint of at most ten thousand sound resources, each URN once. */
  predicate SoundBytes(o: Observer, raw: Bytes, head: Head) {
    && o.decode(raw).Some?
    && var c := o.decode(raw).value;
    && c.sound && |c.rows| <= 10000
    && (forall i :: 0 <= i < |c.rows| ==> SoundResource(o, c.rows[i], o.legacyPinned(raw, head, c.rows)))
    && (forall i, j :: 0 <= i < j < |c.rows| ==> Item(c.rows[i], "urn") != Item(c.rows[j], "urn"))
  }

  /** The seven public fields of a row, null where it has none. */
  function PublicRow(row: Members): Members {
    map[T("urn") := Item(row, "urn"), T("type") := Item(row, "type"), T("id") := Item(row, "id"),
        T("parent") := Item(row, "parent"), T("provider") := Item(row, "provider"),
        T("custom") := Item(row, "custom"), T("external") := Item(row, "external")]
  }

  predicate ShownRow(rows: seq<Members>, v: Value) {
    exists i :: 0 <= i < |rows| && v == Obj(PublicRow(rows[i]))
  }

  predicate UrnBefore(a: Value, b: Value) {
    && a.Obj? && b.Obj? && Item(a.members, "urn").Str? && Item(b.members, "urn").Str?
    && Below(Item(a.members, "urn").s, Item(b.members, "urn").s)
  }

  /** The public parts of exactly these rows, in the order of their URNs. */
  predicate PublicInOrder(rows: seq<Members>, listed: seq<Value>) {
    && (forall i :: 0 <= i < |listed| ==> ShownRow(rows, listed[i]))
    && (forall i :: 0 <= i < |rows| ==> Obj(PublicRow(rows[i])) in listed)
    && (forall i, j :: 0 <= i < j < |listed| ==> UrnBefore(listed[i], listed[j]))
  }

  lemma {:induction false} ResourceExactly(o: Observer, row: Members, legacy: bool)
    ensures ResourceOk(o, row, legacy) <==> SoundResource(o, row, legacy)
  {
  }

  lemma {:induction false} CheckpointExactly(o: Observer, raw: Bytes, head: Head)
    ensures CheckpointOk(o, raw, head) <==> SoundBytes(o, raw, head)
  {
    hide ResourceOk, SoundResource;
    if o.decode(raw).Some? {
      var rows := o.decode(raw).value.rows;
      var legacy := o.legacyPinned(raw, head, rows);
      forall i | 0 <= i < |rows|
        ensures ResourceOk(o, rows[i], legacy) <==> SoundResource(o, rows[i], legacy)
        ensures ResourceOk(o, rows[i], legacy) ==> Item(rows[i], "urn") == Str(UrnOf(rows[i]))
      {
        ResourceExactly(o, rows[i], legacy);
        ResourceUrn(o, rows[i], legacy);
      }
      hide UrnOf, Item;
    }
  }

  lemma {:induction false} ResourceUrn(o: Observer, row: Members, legacy: bool)
    ensures ResourceOk(o, row, legacy) ==> Item(row, "urn") == Str(UrnOf(row))
  {
  }

  lemma {:induction false} PublicExactly(row: Members)
    ensures Public(row) == PublicRow(row)
  {
    assert PUBLIC_FIELDS == PublicRow(row).Keys;
    PublicNames();
  }

  lemma {:induction false} PublicNames()
    ensures T("urn") !in {T("type"), T("id"), T("parent"), T("provider"), T("custom"), T("external")}
    ensures T("type") !in {T("id"), T("parent"), T("provider"), T("custom"), T("external")}
    ensures T("id") !in {T("parent"), T("provider"), T("custom"), T("external")}
    ensures T("parent") !in {T("provider"), T("custom"), T("external")}
    ensures T("provider") !in {T("custom"), T("external")} && T("custom") != T("external")
  {
    assert |T("urn")| == 3 && |T("type")| == 4 && |T("id")| == 2 && |T("parent")| == 6 && |T("provider")| == 8;
    assert |T("custom")| == 6 && |T("external")| == 8;
    assert T("parent")[0] == 'p' as int && T("custom")[0] == 'c' as int;
    assert T("provider")[0] == 'p' as int && T("external")[0] == 'e' as int;
  }

  /**
   The inventory of a sound checkpoint: the number of its rows, the digest of their public parts in the order of
   their URNs, and whether they are only stacks and providers.
   */
  lemma {:induction false} InventoryExactly(o: Observer, rows: seq<Members>, items: map<Text, Members>, legacy: bool)
    requires IsPublic(items, rows) && ResourcesOk(o, rows, legacy)
    ensures var inventory := InventoryOf(o, |rows|, items);
      && inventory.count == |rows| && inventory.sha == o.hash(Print(Arr(InUrnOrder(items))))
      && PublicInOrder(rows, InUrnOrder(items))
      && (inventory.baseline <==> forall i :: 0 <= i < |rows| ==>
           Item(rows[i], "type") == Str(o.stackType) || Item(rows[i], "type") == Str(o.providerType))
  {
    BaselineExactly(o, rows, items);
    OrderShown(o, rows, items, legacy);
    hide InUrnOrder, IsPublic, ResourcesOk, Print, PublicInOrder;
  }

  lemma {:induction false} TypeShown(row: Members)
    ensures TYPE in Public(row) && Public(row)[TYPE] == Item(row, "type")
    ensures URN in Public(row) && Public(row)[URN] == Item(row, "urn")
  {
  }

  lemma {:induction false} BaselineExactly(o: Observer, rows: seq<Members>, items: map<Text, Members>)
    requires IsPublic(items, rows)
    ensures InventoryOf(o, |rows|, items).baseline <==> forall i :: 0 <= i < |rows| ==>
      Item(rows[i], "type") == Str(o.stackType) || Item(rows[i], "type") == Str(o.providerType)
  {
    hide Public, Item, UrnOf, Print, InUrnOrder;
    forall i | 0 <= i < |rows|
      ensures UrnOf(rows[i]) in items && TYPE in items[UrnOf(rows[i])]
      ensures items[UrnOf(rows[i])][TYPE] == Item(rows[i], "type")
    {
      TypeShown(rows[i]);
    }
  }

  lemma {:induction false} ListedAt(items: map<Text, Members>, i: nat)
    requires i < |InUrnOrder(items)|
    ensures i < |Sorted(items.Keys)| && Sorted(items.Keys)[i] in items
    ensures InUrnOrder(items)[i] == Obj(items[Sorted(items.Keys)[i]])
  {
    assert Sorted(items.Keys)[i] in Sorted(items.Keys);
  }

  lemma {:induction false} AllShown(rows: seq<Members>, items: map<Text, Members>, i: nat)
    requires IsPublic(items, rows) && i < |rows|
    ensures Obj(PublicRow(rows[i])) in InUrnOrder(items)
  {
    PublicExactly(rows[i]);
    hide Public, PublicRow, UrnOf;
    var urns := Sorted(items.Keys);
    assert UrnOf(rows[i]) in urns;
    var k :| 0 <= k < |urns| && urns[k] == UrnOf(rows[i]);
    ListedAt(items, k);
    hide InUrnOrder;
    assert InUrnOrder(items)[k] == Obj(PublicRow(rows[i]));
  }

  lemma {:induction false} OnlyShown(rows: seq<Members>, items: map<Text, Members>, i: nat)
    requires IsPublic(items, rows) && i < |InUrnOrder(items)|
    ensures ShownRow(rows, InUrnOrder(items)[i])
  {
    ListedAt(items, i);
    hide Public, PublicRow, UrnOf, InUrnOrder;
    var k :| 0 <= k < |rows| && UrnOf(rows[k]) == Sorted(items.Keys)[i];
    PublicExactly(rows[k]);
  }

  lemma {:induction false} UrnOrder(items: map<Text, Members>)
    requires NamedByUrn(items)
    ensures var listed := InUrnOrder(items);
      forall i, j :: 0 <= i < j < |listed| ==> UrnBefore(listed[i], listed[j])
  {
    hide NamedByUrn, InUrnOrder;
    var urns, listed := Sorted(items.Keys), InUrnOrder(items);
    forall i, j | 0 <= i < j < |listed| ensures UrnBefore(listed[i], listed[j]) {
      ListedAt(items, i);
      ListedAt(items, j);
      NamedShown(items, urns[i]);
      NamedShown(items, urns[j]);
    }
  }

  lemma {:induction false} OrderShown(o: Observer, rows: seq<Members>, items: map<Text, Members>, legacy: bool)
    requires IsPublic(items, rows) && ResourcesOk(o, rows, legacy)
    ensures PublicInOrder(rows, InUrnOrder(items))
  {
    hide ResourcesOk, ShownRow, PublicRow, NamedByUrn, InUrnOrder, UrnBefore, IsPublic;
    PublicNamed(o, items, rows, legacy);
    UrnOrder(items);
    var listed := InUrnOrder(items);
    forall i | 0 <= i < |listed| ensures ShownRow(rows, listed[i]) {
      OnlyShown(rows, items, i);
    }
    forall i | 0 <= i < |rows| ensures Obj(PublicRow(rows[i])) in listed {
      AllShown(rows, items, i);
    }
  }

  lemma {:induction false} NamedShown(items: map<Text, Members>, u: Text)
    requires NamedByUrn(items) && u in items
    ensures Item(items[u], "urn") == Str(u)
  {
  }

  // ---------------------------------------------------------------- a store at rest

  function KeysUnder(store: Store, prefix: Text): set<Text> {
    set k | k in CurrentKeys(store) && prefix <= k
  }

  /** All keys under the prefix on one page. */
  function OnePage(store: Store, prefix: Text): Page {
    var keys := Sorted(KeysUnder(store, prefix));
    Page(Some(false), seq(|keys|, i requires 0 <= i < |keys| => Str(keys[i])), Null)
  }

  function RestLists(store: Store): Key -> Lister {
    (prefix: Key) => (t: nat, token: Option<Text>) => OnePage(store, prefix)
  }

  lemma {:induction false} OnePageKeys(store: Store, prefix: Text)
    ensures KeySet(KeysOf(OnePage(store, prefix))) == KeysUnder(store, prefix)
    ensures KeysOk(KeysOf(OnePage(store, prefix)), prefix)
    ensures |KeysOf(OnePage(store, prefix))| == |KeysUnder(store, prefix)|
  {
    hide KeysUnder, Sorted;
    var keys, page := Sorted(KeysUnder(store, prefix)), KeysOf(OnePage(store, prefix));
    forall i | 0 <= i < |keys| ensures keys[i] in KeysUnder(store, prefix) && prefix <= keys[i] {
      assert keys[i] in keys;
      UnderPrefix(store, prefix, keys[i]);
    }
    forall i, j | 0 <= i < j < |keys| ensures keys[i] != keys[j] {
      BelowIrreflexive(keys[i]);
    }
    forall k | k in KeysUnder(store, prefix) ensures k in KeySet(page) {
      assert k in keys;
      var i :| 0 <= i < |keys| && keys[i] == k;
      assert page[i] == Str(k);
    }
  }

  lemma {:induction false} UnderPrefix(store: Store, prefix: Text, k: Text)
    requires k in KeysUnder(store, prefix)
    ensures prefix <= k
  {
  }

  lemma {:induction false} RestPages(store: Store, prefix: Text, t: nat, n: nat)
    ensures PageAt(RestLists(store)(prefix), t, n) == OnePage(store, prefix)
    ensures Token(RestLists(store)(prefix), t, n) == None
  {
  }

  lemma {:induction false} OnePageOk(store: Store, prefix: Text)
    requires |KeysUnder(store, prefix)| <= 1000
    ensures PageOk(OnePage(store, prefix)) && !OnePage(store, prefix).truncated.value
  {
    hide KeysUnder;
  }

  lemma {:induction false} FirstListed(lister: Lister, t: nat)
    ensures Listed(lister, t, 1) == KeysOf(PageAt(lister, t, 0))
  {
    assert Listed(lister, t, 0) == [];
    ListedNext(lister, t, 0);
  }

  lemma {:induction false} RestListed(store: Store, prefix: Text, t: nat)
    requires |KeysUnder(store, prefix)| <= 1000
    ensures Lists(RestLists(store)(prefix), prefix, t, KeysUnder(store, prefix))
  {
    hide KeysUnder, OnePage, PageOk, KeysOk, KeySet, Listed, PageAt, Token, RestLists, Continues, Finishes;
    var lister := RestLists(store)(prefix);
    RestPages(store, prefix, t, 0);
    OnePageKeys(store, prefix);
    OnePageOk(store, prefix);
    FirstListed(lister, t);
    NothingListed(lister, prefix, t);
    FinishesHere(lister, prefix, t, 1);
    assert ListedKeys(lister, prefix, t, 1, KeysUnder(store, prefix));
  }

  lemma {:induction false} RestHonest(store: Store, prefix: Text, t: nat, n: nat, cursor: Text -> Text)
    ensures Honest(RestLists(store)(prefix), prefix, t, n, Currently(_ => store), cursor)
  {
    OnePageKeys(store, prefix);
    forall i: nat | i < n
      ensures PageAt(RestLists(store)(prefix), t, i) == OnePage(store, prefix)
      ensures Token(RestLists(store)(prefix), t, i) == None
    {
      RestPages(store, prefix, t, i);
    }
    hide PageAt, Token, KeySet, KeysOf;
  }

  /** What the theorems on listings ask of a server is met by one that answers on single pages. */
  lemma {:induction false} RestIsHonest(store: Store, cursor: Text -> Text)
    ensures HonestServer(_ => store, RestLists(store), cursor)
  {
    hide Honest;
    var timeline: Timeline, lists := _ => store, RestLists(store);
    forall prefix, t, n ensures HonestAt(timeline, lists, cursor, prefix, t, n)
    {
      RestHonest(store, prefix, t, n, cursor);
    }
  }

  /** A store in which an observation finds everything in order. */
  ghost predicate InOrder(o: Observer, store: Store, meta: Version) {
    && (forall key :: DistinctIds(VersionsOf(store, key)))
    && Latest(store, o.meta) == Some(meta) && Readable(meta, o.metaLimit, o.keyArn) && o.metaOk(meta.body)
    && KeysUnder(store, o.locks) == {} && |KeysUnder(store, o.checkpoint)| <= 1000
    && o.compressed !in KeysUnder(store, o.checkpoint)
    && (o.checkpoint in KeysUnder(store, o.checkpoint) ==> exists v ::
      Latest(store, o.checkpoint) == Some(v) && Readable(v, o.limit, o.keyArn) && SoundBytes(o, v.body, HeadOf(v)))
  }

  /** What the theorems on captures ask of the writers and the services is met by a store at rest. */
  lemma {:induction false} RestIsQuiet(o: Observer, store: Store, meta: Version, keyArn: Text, t: nat)
    requires InOrder(o, store, meta)
    ensures AppendOnly(_ => store)
    ensures Quiet(o, _ => store, RestLists(store), _ => Services(true, true, Some(keyArn)),
                  KeysUnder(store, o.checkpoint), t)
  {
    hide Readable, KeysUnder, Lists, SoundBytes, CheckpointOk;
    var listed := KeysUnder(store, o.checkpoint);
    forall s: nat ensures Lists(RestLists(store)(o.locks), o.locks, s, {})
      ensures Lists(RestLists(store)(o.checkpoint), o.checkpoint, s, listed)
    {
      RestListed(store, o.locks, s);
      RestListed(store, o.checkpoint, s);
    }
    assert LatestThroughout(_ => store, o.meta, meta, t, t + WINDOW);
    if o.checkpoint in listed {
      var v :| Latest(store, o.checkpoint) == Some(v) && Readable(v, o.limit, o.keyArn)
        && SoundBytes(o, v.body, HeadOf(v));
      CheckpointExactly(o, v.body, HeadOf(v));
      assert LatestThroughout(_ => store, o.checkpoint, v, t, t + WINDOW);
    }
    assert CalmFrom(o, _ => store, RestLists(store), _ => Services(true, true, Some(keyArn)), keyArn, listed, t);
  }
}
