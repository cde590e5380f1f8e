/**
 Consistent snapshots of a versioned object store while others write to it (`_head`, `_capture`, `_inventory`
 and `_capture_backend` in scripts/poc_backend_observer.py), and the gate that ties such a snapshot to a plan
 (`_capture`, `_binding` and `_gate` in scripts/poc_registry_runner.py).
 */
module BackendSnapshot {
  import opened ByteStrings
  import opened Options
  import opened Texts
  import opened Json
  import JsonText
  import opened CanonicalJson
  import opened BackendListing
  import R = RegistryRows
  import P = RegistryPlan

  // ---------------------------------------------------------------- the store and its writers

  type Key = Text

  /** One version of an object: bytes with their native metadata, or a delete marker. */
  datatype Version = Version(id: Text, etag: Text, body: Bytes, encryption: Text, kmsKey: Option<Text>, deleted: bool)

  type Store = map<Key, seq<Version>>

  /** The contents at every moment; between two moments any number of writers may have acted. */
  type Timeline = nat -> Store

  function VersionsOf(store: Store, key: Key): seq<Version> {
    if key in store then store[key] else []
  }

  /** The latest version, whether or not it is a delete marker. */
  function Latest(store: Store, key: Key): Option<Version> {
    var versions := VersionsOf(store, key);
    if versions == [] then None else Some(versions[|versions| - 1])
  }

  predicate DistinctIds(versions: seq<Version>) {
    forall i, j :: 0 <= i < j < |versions| ==> versions[i].id != versions[j].id
  }

  /** Writers only append versions, each under an id of its own. */
  ghost predicate AppendOnly(timeline: Timeline) {
    && (forall t: nat, key :: VersionsOf(timeline(t), key) <= VersionsOf(timeline(t + 1), key))
    && (forall t: nat, key :: DistinctIds(VersionsOf(timeline(t), key)))
  }

  /** `v` is the latest version of `key` at every moment from `first` to `last`. */
  ghost predicate LatestThroughout(timeline: Timeline, key: Key, v: Version, first: nat, last: nat) {
    forall t :: first <= t <= last ==> Latest(timeline(t), key) == Some(v)
  }

  lemma {:induction false} Grows(timeline: Timeline, key: Key, s: nat, t: nat)
    requires AppendOnly(timeline) && s <= t
    ensures VersionsOf(timeline(s), key) <= VersionsOf(timeline(t), key)
    decreases t - s
  {
    hide AppendOnly, VersionsOf;
    if s < t {
      Grows(timeline, key, s, t - 1);
      GrowsOnce(timeline, key, t - 1);
    }
  }

  lemma {:induction false} GrowsOnce(timeline: Timeline, key: Key, t: nat)
    requires AppendOnly(timeline)
    ensures VersionsOf(timeline(t), key) <= VersionsOf(timeline(t + 1), key)
  {
  }

  /** An id that is latest at two moments is the same version, and was latest all the time between. */
  lemma {:induction false} SameIdThroughout(timeline: Timeline, key: Key, v: Version, w: Version, first: nat, last: nat)
    requires AppendOnly(timeline) && first <= last
    requires Latest(timeline(first), key) == Some(v) && Latest(timeline(last), key) == Some(w) && v.id == w.id
    ensures v == w && LatestThroughout(timeline, key, v, first, last)
  {
    var end := VersionsOf(timeline(last), key);
    forall t | first <= t <= last ensures Latest(timeline(t), key) == Some(end[|end| - 1]) {
      Grows(timeline, key, first, t);
      Grows(timeline, key, t, last);
      var start, mid := VersionsOf(timeline(first), key), VersionsOf(timeline(t), key);
      assert start[|start| - 1] == end[|start| - 1];
      assert DistinctIds(end);
      assert |start| == |end|;
    }
    assert Latest(timeline(first), key) == Some(end[|end| - 1]);
  }

  // ---------------------------------------------------------------- reading one object

  /** The fields of a head that are kept and compared. */
  datatype Head = Head(id: Text, etag: Text, length: nat, encryption: Text, kmsKey: Option<Text>)

  function HeadOf(v: Version): Head {
    Head(v.id, v.etag, |v.body|, v.encryption, v.kmsKey)
  }

  const AES: Text := T("AES256")
  const KMS: Text := T("aws:kms")

  predicate Named(t: Text) {
    t != [] && t != T("null")
  }

  /** The checks of `_head` on one version's metadata; `keyArn` recognises this account's keys. */
  predicate HeadOk(v: Version, limit: nat, keyArn: Text -> bool) {
    && !v.deleted && Named(v.id) && Named(v.etag) && 0 < |v.body| <= limit
    && (if v.encryption == AES then v.kmsKey.None?
        else v.encryption == KMS && v.kmsKey.Some? && keyArn(v.kmsKey.value))
  }

  /** A version the program may read: no delete marker, named, within the limit, encrypted as it has to be. */
  predicate Readable(v: Version, limit: nat, keyArn: Text -> bool) {
    && !v.deleted && 1 <= |v.body| <= limit
    && v.id != [] && v.id != T("null") && v.etag != [] && v.etag != T("null")
    && ((v.encryption == T("AES256") && v.kmsKey.None?)
        || (v.encryption == T("aws:kms") && v.kmsKey.Some? && keyArn(v.kmsKey.value)))
  }

  lemma {:induction false} HeadExactly(v: Version, limit: nat, keyArn: Text -> bool)
    ensures HeadOk(v, limit, keyArn) <==> Readable(v, limit, keyArn)
  {
    assert |AES| == 6 && |KMS| == 7;
  }

  function HeadAt(store: Store, key: Key, limit: nat, keyArn: Text -> bool): Option<Head> {
    var v := Latest(store, key);
    if v.Some? && HeadOk(v.value, limit, keyArn) then Some(HeadOf(v.value)) else None
  }

  /** A read pinned to a version and an entity tag. */
  function ReadAt(store: Store, key: Key, id: Text, etag: Text): Option<Version> {
    Pick(VersionsOf(store, key), id, etag)
  }

  function Pick(versions: seq<Version>, id: Text, etag: Text): (r: Option<Version>)
    ensures r.Some? ==> r.value in versions && r.value.id == id && r.value.etag == etag
  {
    if versions == [] then None
    else if versions[0].id == id && versions[0].etag == etag && !versions[0].deleted then Some(versions[0])
    else Pick(versions[1..], id, etag)
  }

  lemma {:induction false} PickFinds(versions: seq<Version>, v: Version)
    requires v in versions && !v.deleted
    ensures Pick(versions, v.id, v.etag).Some?
  {
    if versions[0] != v {
      PickFinds(versions[1..], v);
    }
  }

  /** One readable version is the latest at three moments. */
  ghost predicate Steady(timeline: Timeline, key: Key, limit: nat, keyArn: Text -> bool, t: nat) {
    exists v :: SteadyVersion(timeline, key, limit, keyArn, t, v)
  }

  ghost predicate SteadyVersion(timeline: Timeline, key: Key, limit: nat, keyArn: Text -> bool, t: nat, v: Version) {
    LatestThroughout(timeline, key, v, t, t + 2) && Readable(v, limit, keyArn)
  }

  lemma {:induction false} SteadyReads(timeline: Timeline, key: Key, limit: nat, keyArn: Text -> bool, t: nat)
    requires AppendOnly(timeline)
    ensures Steady(timeline, key, limit, keyArn, t) ==>
      && HeadAt(timeline(t), key, limit, keyArn).Some?
      && HeadAt(timeline(t + 2), key, limit, keyArn) == HeadAt(timeline(t), key, limit, keyArn)
      && var head := HeadAt(timeline(t), key, limit, keyArn).value;
         var found := ReadAt(timeline(t + 1), key, head.id, head.etag);
      && found.Some? && HeadOf(found.value) == head && |found.value.body| <= limit
  {
    hide AppendOnly, Readable, Pick, LatestThroughout;
    if Steady(timeline, key, limit, keyArn, t) {
      var v :| SteadyVersion(timeline, key, limit, keyArn, t, v);
      HeadExactly(v, limit, keyArn);
      LatestAt(timeline, key, v, t, t + 2, t);
      LatestAt(timeline, key, v, t, t + 2, t + 1);
      LatestAt(timeline, key, v, t, t + 2, t + 2);
      PickFinds(VersionsOf(timeline(t + 1), key), v);
      IdsDistinct(timeline, t + 1, key);
      PickedIsLatest(timeline(t + 1), key, ReadAt(timeline(t + 1), key, v.id, v.etag).value, v);
    }
  }

  lemma {:induction false} PinnedIsSteady(
    timeline: Timeline, key: Key, limit: nat, keyArn: Text -> bool, t: nat, v: Version)
    requires LatestThroughout(timeline, key, v, t, t + 2) && HeadAt(timeline(t), key, limit, keyArn).Some?
    ensures Steady(timeline, key, limit, keyArn, t)
  {
    LatestAt(timeline, key, v, t, t + 2, t);
    HeadExactly(v, limit, keyArn);
    hide LatestThroughout, Readable;
    assert SteadyVersion(timeline, key, limit, keyArn, t, v);
  }

  // ---------------------------------------------------------------- the checkpoint's inventory

  const URN: Text := T("urn")
  const TYPE: Text := T("type")
  const PUBLIC_FIELDS: set<Text> :=
    {URN, TYPE, T("id"), T("parent"), T("provider"), T("custom"), T("external")}

  /** A decoded checkpoint: `sound` covers its version, stack, pending operations and secrets provider. */
  datatype Checkpoint = Checkpoint(sound: bool, rows: seq<Members>)

  /**
   What the observer is told and what it calls: `decode` reads strict JSON, `sha` and `hash` are SHA-256 of
   bytes and of ASCII text, `legacyPinned` recognises the one checkpoint that predates the provider settings,
   `providerOk` checks a provider row, which is all that depends on it.
   */
  datatype Observer = Observer(
    locks: Key, checkpoint: Key, compressed: Key, meta: Key, metaLimit: nat, limit: nat, urnPrefix: Text,
    providerType: Text, stackType: Text, keyArn: Text -> bool, metaOk: Bytes -> bool,
    decode: Bytes -> Option<Checkpoint>, legacyPinned: (Bytes, Head, seq<Members>) -> bool,
    providerOk: (Members, bool) -> bool, sha: Bytes -> Text, hash: Text -> Text)

  function Field(row: Members, field: Text): Value {
    if field in row then row[field] else Null
  }

  function UrnOf(row: Members): Text {
    if Field(row, URN).Str? then Field(row, URN).s else []
  }

  /** The ownership coordinates of a row, without its inputs and outputs. */
  function Public(row: Members): Members {
    map k | k in PUBLIC_FIELDS :: Field(row, k)
  }

  /** `_resource`, apart from the URN not having been seen. */
  predicate ResourceOk(o: Observer, row: Members, legacy: bool) {
    && Field(row, URN).Str? && o.urnPrefix <= Field(row, URN).s
    && !Truthy(Field(row, T("delete"))) && !Truthy(Field(row, T("pendingReplacement")))
    && Field(row, TYPE).Str? && Field(row, TYPE).s != []
    && (Field(row, TYPE).s == o.providerType ==> o.providerOk(row, legacy))
  }

  predicate ResourcesOk(o: Observer, rows: seq<Members>, legacy: bool) {
    && (forall i :: 0 <= i < |rows| ==> ResourceOk(o, rows[i], legacy))
    && (forall i, j :: 0 <= i < j < |rows| ==> UrnOf(rows[i]) != UrnOf(rows[j]))
  }

  /** The public rows by URN. */
  ghost predicate IsPublic(items: map<Text, Members>, rows: seq<Members>) {
    && (forall u :: u in items <==> exists i :: 0 <= i < |rows| && UrnOf(rows[i]) == u)
    && (forall i :: 0 <= i < |rows| ==> UrnOf(rows[i]) in items && items[UrnOf(rows[i])] == Public(rows[i]))
  }

  function InUrnOrder(items: map<Text, Members>): seq<Value> {
    var urns := Sorted(items.Keys);
    assert forall i :: 0 <= i < |urns| ==> urns[i] in urns;
    seq(|urns|, i requires 0 <= i < |urns| => Obj(items[urns[i]]))
  }

  method CollectResources(o: Observer, rows: seq<Members>, legacy: bool) returns (r: Option<map<Text, Members>>)
    ensures r.Some? <==> ResourcesOk(o, rows, legacy)
    ensures r.Some? ==> IsPublic(r.value, rows)
  {
    hide ResourceOk, UrnOf, Public;
    var items: map<Text, Members> := map[];
    for n := 0 to |rows|
      invariant ResourcesOk(o, rows[..n], legacy) && IsPublic(items, rows[..n])
    {
      ResourcesAppend(o, rows, n, legacy, items);
      if !ResourceOk(o, rows[n], legacy) || UrnOf(rows[n]) in items {
        return None;
      }
      items := items[UrnOf(rows[n]) := Public(rows[n])];
    }
    assert rows[..|rows|] == rows;
    return Some(items);
  }

  lemma {:induction false} ResourcesAppend(
    o: Observer, rows: seq<Members>, n: nat, legacy: bool, items: map<Text, Members>)
    requires n < |rows| && ResourcesOk(o, rows[..n], legacy) && IsPublic(items, rows[..n])
    ensures var good := ResourceOk(o, rows[n], legacy) && UrnOf(rows[n]) !in items;
      && (ResourcesOk(o, rows, legacy) ==> good)
      && (good ==> ResourcesOk(o, rows[..n + 1], legacy))
      && (good ==> IsPublic(items[UrnOf(rows[n]) := Public(rows[n])], rows[..n + 1]))
  {
    hide ResourceOk, UrnOf, Public;
    var next := rows[..n + 1];
    assert next[n] == rows[n] && forall i :: 0 <= i < n ==> next[i] == rows[..n][i] == rows[i];
    if UrnOf(rows[n]) in items {
      var i :| 0 <= i < n && UrnOf(rows[..n][i]) == UrnOf(rows[n]);
      assert UrnOf(rows[i]) == UrnOf(rows[n]);
    } else {
      var items' := items[UrnOf(rows[n]) := Public(rows[n])];
      forall u | u in items' ensures exists i :: 0 <= i < |next| && UrnOf(next[i]) == u {
        if u == UrnOf(rows[n]) {
          assert UrnOf(next[n]) == u;
        } else {
          var i :| 0 <= i < n && UrnOf(rows[..n][i]) == u;
          assert UrnOf(next[i]) == u;
        }
      }
    }
  }

  datatype Inventory = Inventory(count: nat, sha: Text, baseline: bool)

  function InventoryOf(o: Observer, count: nat, items: map<Text, Members>): Inventory {
    Inventory(
      count, o.hash(Print(Arr(InUrnOrder(items)))),
      forall u :: u in items ==>
        TYPE in items[u] && (items[u][TYPE] == Str(o.stackType) || items[u][TYPE] == Str(o.providerType)))
  }

  /** `_inventory` accepts the bytes of a version. */
  predicate CheckpointOk(o: Observer, raw: Bytes, head: Head) {
    && o.decode(raw).Some?
    && var checkpoint := o.decode(raw).value;
    && checkpoint.sound && |checkpoint.rows| <= 10000
    && ResourcesOk(o, checkpoint.rows, o.legacyPinned(raw, head, checkpoint.rows))
  }

  method TakeInventory(o: Observer, raw: Bytes, head: Head) returns (r: Option<(Inventory, seq<Members>)>)
    ensures r.Some? <==> CheckpointOk(o, raw, head)
    ensures r.Some? ==> r.value.1 == o.decode(raw).value.rows
    ensures r.Some? ==> exists items ::
      IsPublic(items, r.value.1) && r.value.0 == InventoryOf(o, |r.value.1|, items)
  {
    hide ResourcesOk, InventoryOf;
    var checkpoint := o.decode(raw);
    if checkpoint.None? || !checkpoint.value.sound || |checkpoint.value.rows| > 10000 {
      return None;
    }
    var rows := checkpoint.value.rows;
    var items := CollectResources(o, rows, o.legacyPinned(raw, head, rows));
    if items.None? {
      return None;
    }
    return Some((InventoryOf(o, |rows|, items.value), rows));
  }

  /** Every public row is filed under the URN it carries. */
  predicate NamedByUrn(items: map<Text, Members>) {
    forall u :: u in items ==> URN in items[u] && items[u][URN] == Str(u)
  }

  lemma {:induction false} PublicNamed(o: Observer, items: map<Text, Members>, rows: seq<Members>, legacy: bool)
    requires IsPublic(items, rows) && ResourcesOk(o, rows, legacy)
    ensures NamedByUrn(items)
  {
  }

  lemma {:induction false} OrderDetermines(a: map<Text, Members>, b: map<Text, Members>)
    requires NamedByUrn(a) && NamedByUrn(b) && InUrnOrder(a) == InUrnOrder(b)
    ensures a == b
  {
    OrderIncludes(a, b);
    OrderIncludes(b, a);
  }

  lemma {:induction false} OrderIncludes(a: map<Text, Members>, b: map<Text, Members>)
    requires NamedByUrn(a) && NamedByUrn(b) && InUrnOrder(a) == InUrnOrder(b)
    ensures forall u :: u in a ==> u in b && a[u] == b[u]
  {
    var s, t := Sorted(a.Keys), Sorted(b.Keys);
    forall u | u in a ensures u in b && a[u] == b[u] {
      assert u in s;
      var i :| 0 <= i < |s| && s[i] == u;
      assert InUrnOrder(a)[i] == Obj(a[u]);
      assert t[i] in t && InUrnOrder(b)[i] == Obj(b[t[i]]);
    }
  }

  /** The inventory digest determines the public rows: equal digests are equal resources, whatever their order. */
  lemma {:induction false} DigestDeterminesRows(
    o: Observer, scan: JsonText.FloatScan, rows: seq<Members>, a: map<Text, Members>, legacy: bool,
    rows': seq<Members>, b: map<Text, Members>, legacy': bool)
    requires IsPublic(a, rows) && ResourcesOk(o, rows, legacy) && IsPublic(b, rows') && ResourcesOk(o, rows', legacy')
    requires FloatsOk(scan, Arr(InUrnOrder(a))) && Whole(Arr(InUrnOrder(a)))
    requires FloatsOk(scan, Arr(InUrnOrder(b))) && Whole(Arr(InUrnOrder(b)))
    ensures InventoryOf(o, |rows|, a).sha == InventoryOf(o, |rows'|, b).sha <==>
      a == b || Collide(o.hash, Print(Arr(InUrnOrder(a))), Print(Arr(InUrnOrder(b))))
  {
    hide Print, FloatsOk, Whole, NamedByUrn, ResourcesOk, IsPublic, InUrnOrder;
    PublicNamed(o, a, rows, legacy);
    PublicNamed(o, b, rows', legacy');
    if Print(Arr(InUrnOrder(a))) == Print(Arr(InUrnOrder(b))) {
      PrintInjective(scan, Arr(InUrnOrder(a)), Arr(InUrnOrder(b)));
      OrderDetermines(a, b);
    }
  }

  // ---------------------------------------------------------------- one observation

  /** The answers of the account's other services at one moment: the caller, the bucket's versioning, the key. */
  datatype Services = Services(expectedCaller: bool, versioned: bool, keyArn: Option<Text>)

  datatype State =
    | ObservedAbsence
    | ObservedCheckpoint(head: Head, sha: Text, inventory: Inventory)

  /** `PrivateBackendCapture`: the public summary and the private rows. */
  datatype Capture = Capture(keyArn: Text, meta: Head, state: State, resources: seq<Members>)

  /** Which versions were read, and when; which keys were listed under the checkpoint's name. */
  datatype Witness = Witness(
    version: Version, first: nat, last: nat, meta: Version, metaFirst: nat, metaLast: nat, listed: set<Text>)

  /** The state and rows are those of `v`: head, digest, inventory and rows all come from its bytes. */
  ghost predicate StateDescribes(o: Observer, state: State, rows: seq<Members>, v: Version) {
    && state.ObservedCheckpoint?
    && state.head == HeadOf(v) && state.sha == o.sha(v.body)
    && CheckpointOk(o, v.body, HeadOf(v))
    && rows == o.decode(v.body).value.rows
    && exists items :: IsPublic(items, rows) && state.inventory == InventoryOf(o, |rows|, items)
  }

  /**
   What a returned capture is: the metadata object did not change while the checkpoint was looked at, and the
   checkpoint is one version that stayed the latest from its first head to its last.
   */
  ghost predicate Observed(o: Observer, timeline: Timeline, c: Capture, w: Witness) {
    && w.metaFirst < w.first <= w.last < w.metaLast
    && LatestThroughout(timeline, o.meta, w.meta, w.metaFirst, w.metaLast)
    && c.meta == HeadOf(w.meta) && o.metaOk(w.meta.body)
    && (c.state.ObservedCheckpoint? ==>
      LatestThroughout(timeline, o.checkpoint, w.version, w.first, w.last)
      && StateDescribes(o, c.state, c.resources, w.version))
  }

  /** A checkpoint is reported exactly if it is listed, and never beside a compressed one; absence has no rows. */
  predicate StateListed(o: Observer, state: State, rows: seq<Members>, listed: set<Text>) {
    && o.compressed !in listed
    && (state.ObservedCheckpoint? <==> o.checkpoint in listed)
    && (state.ObservedAbsence? ==> rows == [])
  }

  /** Before and after the checkpoint was read, no lock was listed, and the listing was the same. */
  ghost predicate Surrounded(o: Observer, lists: Key -> Lister, c: Capture, w: Witness) {
    && KeysBetween(lists(o.locks), o.locks, w.metaFirst, w.first, {})
    && KeysBetween(lists(o.locks), o.locks, w.last, w.metaLast, {})
    && KeysBetween(lists(o.checkpoint), o.checkpoint, w.metaFirst, w.first, w.listed)
    && KeysBetween(lists(o.checkpoint), o.checkpoint, w.last - 1, w.metaLast, w.listed)
    && StateListed(o, c.state, c.resources, w.listed)
  }

  /** A complete listing of `n` requests begun at `t` has exactly these keys. */
  ghost predicate ListedKeys(lister: Lister, prefix: Text, t: nat, n: nat, keys: set<Text>) {
    Finishes(lister, prefix, t, n) && KeySet(Listed(lister, t, n)) == keys
  }

  /** A listing begun at `t` would be complete with exactly these keys. */
  ghost predicate Lists(lister: Lister, prefix: Text, t: nat, keys: set<Text>) {
    exists n :: ListedKeys(lister, prefix, t, n, keys)
  }

  lemma {:induction false} ListsOnce(lister: Lister, prefix: Text, t: nat, n: nat, keys: set<Text>)
    requires Finishes(lister, prefix, t, n) && Lists(lister, prefix, t, keys)
    ensures KeySet(Listed(lister, t, n)) == keys
  {
    hide Finishes, Listed, KeySet;
    var m :| ListedKeys(lister, prefix, t, m, keys);
    FinishesOnce(lister, prefix, t, n, m);
  }

  /** Such a listing was made after moment `a` and before `b`. */
  ghost predicate KeysBetween(lister: Lister, prefix: Text, a: int, b: int, keys: set<Text>) {
    exists t: nat, n: nat :: a < t && t + n <= b && ListedKeys(lister, prefix, t, n, keys)
  }

  lemma {:induction false} KeysWiden(
    lister: Lister, prefix: Text, a: int, b: int, a': int, b': int, keys: set<Text>)
    requires KeysBetween(lister, prefix, a, b, keys) && a' <= a && b <= b'
    ensures KeysBetween(lister, prefix, a', b', keys)
  {
    hide ListedKeys;
  }

  function Elements(keys: seq<Text>): set<Text> {
    set k | k in keys
  }

  // ---------------------------------------------------------------- when nothing happens

  /** One readable version of `key` is the latest all the time from `first` to `last`. */
  ghost predicate Stable(o: Observer, timeline: Timeline, key: Key, limit: nat, first: nat, last: nat) {
    exists v :: LatestThroughout(timeline, key, v, first, last) && Readable(v, limit, o.keyArn)
  }

  predicate SoundCheckpoint(o: Observer, store: Store) {
    var v := Latest(store, o.checkpoint);
    v.Some? && CheckpointOk(o, v.value.body, HeadOf(v.value))
  }

  predicate SoundMetadata(o: Observer, store: Store) {
    var v := Latest(store, o.meta);
    v.Some? && o.metaOk(v.value.body)
  }

  /** From `a` to `b` the services answer well and alike, no lock is listed, and nothing looked at changes. */
  ghost predicate Calm(
    o: Observer, timeline: Timeline, lists: Key -> Lister, services: nat -> Services, keyArn: Text, listed: set<Text>,
    a: nat, b: nat)
  {
    && (forall t :: a <= t <= b ==> services(t) == Services(true, true, Some(keyArn)))
    && Stable(o, timeline, o.meta, o.metaLimit, a, b) && SoundMetadata(o, timeline(a))
    && (forall t :: a <= t <= b ==> Lists(lists(o.locks), o.locks, t, {}))
    && (forall t :: a <= t <= b ==> Lists(lists(o.checkpoint), o.checkpoint, t, listed))
    && o.compressed !in listed
    && (o.checkpoint in listed ==>
      Stable(o, timeline, o.checkpoint, o.limit, a, b) && SoundCheckpoint(o, timeline(a)))
  }

  /** Longer than any observation takes: three listings beside the checkpoint's, and at most a dozen other calls. */
  const WINDOW: nat := 100

  ghost predicate Quiet(
    o: Observer, timeline: Timeline, lists: Key -> Lister, services: nat -> Services, listed: set<Text>, t: nat)
  {
    exists keyArn :: CalmFrom(o, timeline, lists, services, keyArn, listed, t)
  }

  ghost predicate CalmFrom(
    o: Observer, timeline: Timeline, lists: Key -> Lister, services: nat -> Services, keyArn: Text, listed: set<Text>,
    t: nat)
  {
    Calm(o, timeline, lists, services, keyArn, listed, t, t + WINDOW)
  }

  /** The same with the metadata head that was seen. */
  ghost predicate CalmWith(
    o: Observer, timeline: Timeline, lists: Key -> Lister, services: nat -> Services, keyArn: Text, listed: set<Text>,
    a: nat, b: nat, meta: Head)
  {
    && Calm(o, timeline, lists, services, keyArn, listed, a, b)
    && HeadAt(timeline(a), o.meta, o.metaLimit, o.keyArn) == Some(meta)
  }

  /** The checkpoint can be read at `t`. */
  ghost predicate Settled(o: Observer, timeline: Timeline, t: nat) {
    Stable(o, timeline, o.checkpoint, o.limit, t, t + 3) && SoundCheckpoint(o, timeline(t))
  }

  lemma {:induction false} StableSteady(
    o: Observer, timeline: Timeline, key: Key, limit: nat, first: nat, last: nat)
    requires Stable(o, timeline, key, limit, first, last) && first + 2 <= last
    ensures Steady(timeline, key, limit, o.keyArn, first)
  {
    hide Readable;
    var v :| LatestThroughout(timeline, key, v, first, last) && Readable(v, limit, o.keyArn);
    assert SteadyVersion(timeline, key, limit, o.keyArn, first, v);
  }

  lemma {:induction false} StableHeads(
    o: Observer, timeline: Timeline, key: Key, limit: nat, first: nat, last: nat, t: nat)
    requires Stable(o, timeline, key, limit, first, last) && first <= t <= last
    ensures Latest(timeline(t), key) == Latest(timeline(first), key) && Latest(timeline(first), key).Some?
    ensures HeadAt(timeline(t), key, limit, o.keyArn) == Some(HeadOf(Latest(timeline(first), key).value))
  {
    hide Readable, Latest;
    var v :| LatestThroughout(timeline, key, v, first, last) && Readable(v, limit, o.keyArn);
    HeadExactly(v, limit, o.keyArn);
    LatestAt(timeline, key, v, first, last, t);
    LatestAt(timeline, key, v, first, last, first);
  }

  lemma {:induction false} StableWithin(
    o: Observer, timeline: Timeline, key: Key, limit: nat, a: nat, b: nat, a': nat, b': nat)
    requires Stable(o, timeline, key, limit, a, b) && a <= a' <= b' <= b
    ensures Stable(o, timeline, key, limit, a', b')
  {
    hide Readable;
    var v :| LatestThroughout(timeline, key, v, a, b) && Readable(v, limit, o.keyArn);
    assert LatestThroughout(timeline, key, v, a', b');
  }

  lemma {:induction false} CalmWithin(
    o: Observer, timeline: Timeline, lists: Key -> Lister, services: nat -> Services, keyArn: Text, listed: set<Text>,
    a: nat, b: nat, a': nat, b': nat)
    requires Calm(o, timeline, lists, services, keyArn, listed, a, b) && a <= a' <= b' <= b
    ensures Calm(o, timeline, lists, services, keyArn, listed, a', b')
  {
    hide Stable, Lists, HeadAt, CheckpointOk, Latest;
    StableWithin(o, timeline, o.meta, o.metaLimit, a, b, a', b');
    StableHeads(o, timeline, o.meta, o.metaLimit, a, b, a');
    if o.checkpoint in listed {
      StableWithin(o, timeline, o.checkpoint, o.limit, a, b, a', b');
      StableHeads(o, timeline, o.checkpoint, o.limit, a, b, a');
    }
  }

  lemma {:induction false} CalmLists(
    o: Observer, timeline: Timeline, lists: Key -> Lister, services: nat -> Services, keyArn: Text, listed: set<Text>,
    a: nat, b: nat, t: nat)
    requires Calm(o, timeline, lists, services, keyArn, listed, a, b) && a <= t <= b
    ensures Lists(lists(o.locks), o.locks, t, {}) && Lists(lists(o.checkpoint), o.checkpoint, t, listed)
    ensures o.compressed !in listed
  {
    hide Stable, Lists, SoundCheckpoint, SoundMetadata;
  }

  lemma {:induction false} CalmState(
    o: Observer, timeline: Timeline, lists: Key -> Lister, services: nat -> Services, keyArn: Text, listed: set<Text>,
    a: nat, b: nat, t: nat)
    requires Calm(o, timeline, lists, services, keyArn, listed, a, b) && a <= t && t + 3 <= b
    ensures o.checkpoint in listed ==> Settled(o, timeline, t)
  {
    CalmWithin(o, timeline, lists, services, keyArn, listed, a, b, t, t + 3);
    hide Stable, Lists, SoundCheckpoint, SoundMetadata;
  }

  lemma {:induction false} CalmMetadata(
    o: Observer, timeline: Timeline, lists: Key -> Lister, services: nat -> Services, keyArn: Text, listed: set<Text>,
    a: nat, b: nat, t: nat)
    requires Calm(o, timeline, lists, services, keyArn, listed, a, b) && a <= t <= b
    ensures HeadAt(timeline(t), o.meta, o.metaLimit, o.keyArn) == HeadAt(timeline(a), o.meta, o.metaLimit, o.keyArn)
  {
    hide Stable, Lists, SoundCheckpoint, SoundMetadata, HeadAt;
    StableHeads(o, timeline, o.meta, o.metaLimit, a, b, t);
    StableHeads(o, timeline, o.meta, o.metaLimit, a, b, a);
  }

  /** What is found at any moment of a calm stretch. */
  lemma {:induction false} CalmAt(
    o: Observer, timeline: Timeline, lists: Key -> Lister, services: nat -> Services, keyArn: Text, listed: set<Text>,
    a: nat, b: nat, meta: Head, t: nat)
    requires a <= t <= b
    ensures CalmWith(o, timeline, lists, services, keyArn, listed, a, b, meta) ==>
      && Lists(lists(o.locks), o.locks, t, {}) && Lists(lists(o.checkpoint), o.checkpoint, t, listed)
      && HeadAt(timeline(t), o.meta, o.metaLimit, o.keyArn) == Some(meta)
      && services(t) == Services(true, true, Some(keyArn)) && o.compressed !in listed
      && (o.checkpoint in listed && t + 3 <= b ==> Settled(o, timeline, t))
  {
    hide Lists, Stable, SoundCheckpoint, SoundMetadata, HeadAt, Settled;
    if CalmWith(o, timeline, lists, services, keyArn, listed, a, b, meta) {
      CalmMetadata(o, timeline, lists, services, keyArn, listed, a, b, t);
      if t + 3 <= b {
        CalmState(o, timeline, lists, services, keyArn, listed, a, b, t);
      }
    }
  }

  lemma {:induction false} CalmWithLater(
    o: Observer, timeline: Timeline, lists: Key -> Lister, services: nat -> Services, keyArn: Text, listed: set<Text>,
    a: nat, b: nat, meta: Head, a': nat, b': nat)
    requires a <= a' <= b' <= b
    ensures CalmWith(o, timeline, lists, services, keyArn, listed, a, b, meta) ==>
      CalmWith(o, timeline, lists, services, keyArn, listed, a', b', meta)
  {
    hide Calm, HeadAt;
    if CalmWith(o, timeline, lists, services, keyArn, listed, a, b, meta) {
      CalmWithin(o, timeline, lists, services, keyArn, listed, a, b, a', b');
      CalmMetadata(o, timeline, lists, services, keyArn, listed, a, b, a');
    }
  }

  /** What makes the start of an observation go well. */
  lemma {:induction false} CalmStart(
    o: Observer, timeline: Timeline, lists: Key -> Lister, services: nat -> Services, keyArn: Text, listed: set<Text>,
    a: nat, b: nat)
    requires Calm(o, timeline, lists, services, keyArn, listed, a, b) && a + 94 <= b
    ensures services(a).expectedCaller && services(a + 1).versioned && services(a + 2).keyArn == Some(keyArn)
    ensures Steady(timeline, o.meta, o.metaLimit, o.keyArn, a + 3)
    ensures Latest(timeline(a + 3), o.meta).Some? && o.metaOk(Latest(timeline(a + 3), o.meta).value.body)
    ensures CalmWith(o, timeline, lists, services, keyArn, listed, a + 6, a + 6 + 88,
                     HeadOf(Latest(timeline(a + 3), o.meta).value))
  {
    hide Lists, SoundCheckpoint, HeadAt, Steady, Stable, Latest;
    StableWithin(o, timeline, o.meta, o.metaLimit, a, b, a + 3, a + 5);
    StableSteady(o, timeline, o.meta, o.metaLimit, a + 3, a + 5);
    StableHeads(o, timeline, o.meta, o.metaLimit, a, b, a + 3);
    StableHeads(o, timeline, o.meta, o.metaLimit, a, b, a + 6);
    CalmWithin(o, timeline, lists, services, keyArn, listed, a, b, a + 6, a + 6 + 88);
  }

  /** What an observation that begins at `t` while nothing happens will find, if nothing happens. */
  lemma {:induction false} QuietListing(
    o: Observer, timeline: Timeline, lists: Key -> Lister, services: nat -> Services, t: nat)
    returns (expected: set<Text>)
    ensures forall listed :: Quiet(o, timeline, lists, services, listed, t) ==>
      && listed == expected
      && services(t).expectedCaller && services(t + 1).versioned && services(t + 2).keyArn.Some?
      && Steady(timeline, o.meta, o.metaLimit, o.keyArn, t + 3)
      && Latest(timeline(t + 3), o.meta).Some? && o.metaOk(Latest(timeline(t + 3), o.meta).value.body)
      && CalmWith(o, timeline, lists, services, services(t + 2).keyArn.value, expected, t + 6, t + 6 + 88,
                  HeadOf(Latest(timeline(t + 3), o.meta).value))
  {
    hide Calm, CalmWith, Steady, Latest;
    expected := {};
    if listed :| Quiet(o, timeline, lists, services, listed, t) {
      expected := listed;
      var keyArn :| CalmFrom(o, timeline, lists, services, keyArn, listed, t);
      CalmStart(o, timeline, lists, services, keyArn, listed, t, t + WINDOW);
      forall other | Quiet(o, timeline, lists, services, other, t) ensures other == expected {
        QuietOnce(o, timeline, lists, services, listed, other, t);
      }
    }
  }

  /** There is one listing only. */
  lemma {:induction false} QuietOnce(
    o: Observer, timeline: Timeline, lists: Key -> Lister, services: nat -> Services, listed: set<Text>,
    other: set<Text>, t: nat)
    requires Quiet(o, timeline, lists, services, listed, t) && Quiet(o, timeline, lists, services, other, t)
    ensures listed == other
  {
    hide Calm, Finishes, KeySet, Listed;
    var x :| CalmFrom(o, timeline, lists, services, x, listed, t);
    var y :| CalmFrom(o, timeline, lists, services, y, other, t);
    CalmLists(o, timeline, lists, services, x, listed, t, t + WINDOW, t);
    CalmLists(o, timeline, lists, services, y, other, t, t + WINDOW, t);
    var n :| ListedKeys(lists(o.checkpoint), o.checkpoint, t, n, listed);
    ListsOnce(lists(o.checkpoint), o.checkpoint, t, n, other);
  }

  lemma {:induction false} SortedElements(keys: set<Text>)
    ensures Elements(Sorted(keys)) == keys
  {
  }

  class Backend {
    const o: Observer
    const timeline: Timeline
    const lists: Key -> Lister
    const services: nat -> Services
    var clock: nat

    constructor (o: Observer, timeline: Timeline, lists: Key -> Lister, services: nat -> Services)
      ensures this.o == o && this.timeline == timeline && this.lists == lists && this.services == services && clock == 0
    {
      this.o, this.timeline, this.lists, this.services, this.clock := o, timeline, lists, services, 0;
    }

    /** Anything else the program does takes time, too. */
    method Wait(time: nat)
      modifies this
      ensures clock == old(clock) + time
    {
      clock := clock + time;
    }

    method ReadHead(key: Key, limit: nat) returns (r: Option<Head>)
      modifies this
      ensures clock == old(clock) + 1
      ensures r == HeadAt(timeline(old(clock)), key, limit, o.keyArn)
    {
      r := HeadAt(timeline(clock), key, limit, o.keyArn);
      clock := clock + 1;
    }

    method ReadObject(key: Key, head: Head) returns (r: Option<Version>)
      modifies this
      ensures clock == old(clock) + 1
      ensures r == ReadAt(timeline(old(clock)), key, head.id, head.etag)
    {
      r := ReadAt(timeline(clock), key, head.id, head.etag);
      clock := clock + 1;
    }

    method List(prefix: Key) returns (r: Option<seq<Text>>)
      modifies this
      ensures old(clock) < clock <= old(clock) + MAX_REQUESTS
      ensures r.Some? <==> exists n :: Finishes(lists(prefix), prefix, old(clock), n)
      ensures r.Some? ==>
        && Finishes(lists(prefix), prefix, old(clock), clock - old(clock))
        && r.value == Sorted(KeySet(Listed(lists(prefix), old(clock), clock - old(clock))))
    {
      hide Finishes, Listed, KeySet, Sorted;
      var calls;
      r, calls := ListPages(lists(prefix), prefix, clock);
      clock := clock + calls;
    }

    /** A complete listing, as the set of its keys. */
    method ListKeys(prefix: Key) returns (r: Option<seq<Text>>)
      modifies this
      ensures old(clock) < clock <= old(clock) + MAX_REQUESTS
      ensures r.Some? ==> KeysBetween(lists(prefix), prefix, old(clock) - 1, clock, Elements(r.value))
      ensures forall keys :: Lists(lists(prefix), prefix, old(clock), keys) ==> r == Some(Sorted(keys))
    {
      hide Finishes, Listed, KeySet;
      ghost var t := clock;
      r := List(prefix);
      if r.Some? {
        SortedElements(KeySet(Listed(lists(prefix), t, clock - t)));
        assert ListedKeys(lists(prefix), prefix, t, clock - t, Elements(r.value));
        forall keys | Lists(lists(prefix), prefix, t, keys) ensures r == Some(Sorted(keys)) {
          ListsOnce(lists(prefix), prefix, t, clock - t, keys);
        }
      } else {
        forall keys ensures !Lists(lists(prefix), prefix, t, keys) {
        }
      }
    }

    /** `_capture`: an object read between two equal heads, and the version that was latest all along. */
    method ReadPinned(key: Key, limit: nat) returns (r: Option<(Head, Bytes)>, ghost v: Version)
      requires AppendOnly(timeline)
      modifies this
      ensures old(clock) < clock <= old(clock) + 3
      ensures r.Some? <==> Steady(timeline, key, limit, o.keyArn, old(clock))
      ensures r.Some? ==> clock == old(clock) + 3
      ensures r.Some? ==>
        LatestThroughout(timeline, key, v, old(clock), old(clock) + 2) && r.value == (HeadOf(v), v.body)
    {
      hide HeadAt, ReadAt, AppendOnly, LatestThroughout, Steady;
      SteadyReads(timeline, key, limit, o.keyArn, clock);
      v := Version([], [], [], [], None, true);
      var before := ReadHead(key, limit);
      if before.None? {
        return None, v;
      }
      var found := ReadObject(key, before.value);
      if found.None? || |found.value.body| > limit || HeadOf(found.value) != before.value {
        return None, v;
      }
      var after := ReadHead(key, limit);
      if after != before {
        return None, v;
      }
      PinnedIsLatest(timeline, key, limit, o.keyArn, before.value, found.value, clock - 3);
      PinnedIsSteady(timeline, key, limit, o.keyArn, clock - 3, found.value);
      return Some((before.value, found.value.body)), found.value;
    }

    /** Whether the listing of a prefix is complete and empty. */
    method ListNone(prefix: Key) returns (ok: bool)
      modifies this
      ensures old(clock) < clock <= old(clock) + MAX_REQUESTS
      ensures ok ==> KeysBetween(lists(prefix), prefix, old(clock) - 1, clock, {})
      ensures Lists(lists(prefix), prefix, old(clock), {}) ==> ok
    {
      hide KeysBetween, Lists;
      var keys := ListKeys(prefix);
      ok := keys == Some([]);
      assert Elements([]) == {} && Sorted({}) == [];
    }

    /** The checkpoint's bytes and inventory, and a last look at its head. */
    method ObserveCheckpoint() returns (r: Option<(State, seq<Members>)>, ghost v: Version)
      requires AppendOnly(timeline)
      modifies this
      ensures old(clock) < clock <= old(clock) + 4
      ensures r.Some? ==>
        && r.value.0.ObservedCheckpoint?
        && LatestThroughout(timeline, o.checkpoint, v, old(clock), clock - 1)
        && StateDescribes(o, r.value.0, r.value.1, v)
      ensures Settled(o, timeline, old(clock)) ==> r.Some?
    {
      hide AppendOnly, LatestThroughout, HeadAt, CheckpointOk, IsPublic, InventoryOf, Steady, Stable, Latest;
      ghost var first := clock;
      if Stable(o, timeline, o.checkpoint, o.limit, first, first + 3) {
        StableSteady(o, timeline, o.checkpoint, o.limit, first, first + 3);
        StableHeads(o, timeline, o.checkpoint, o.limit, first, first + 3, first + 3);
      }
      var pinned;
      pinned, v := ReadPinned(o.checkpoint, o.limit);
      if pinned.None? {
        return None, v;
      }
      var (head, raw) := pinned.value;
      LatestAt(timeline, o.checkpoint, v, first, first + 2, first);
      var inventory := TakeInventory(o, raw, head);
      if inventory.None? {
        return None, v;
      }
      var again := ReadHead(o.checkpoint, o.limit);
      if again != Some(head) {
        return None, v;
      }
      StillLatest(timeline, o.checkpoint, o.limit, o.keyArn, v, first, clock - 1);
      return Some((ObservedCheckpoint(head, o.sha(raw), inventory.value.0), inventory.value.1)), v;
    }

    /** The checkpoint's listing is still the same, and no lock has appeared. */
    method RecheckListing(listing: seq<Text>) returns (ok: bool)
      modifies this
      ensures old(clock) < clock <= old(clock) + 40
      ensures ok ==>
        && old(clock) + 1 < clock
        && KeysBetween(lists(o.locks), o.locks, old(clock), clock, {})
        && KeysBetween(lists(o.checkpoint), o.checkpoint, old(clock) - 1, clock, Elements(listing))
      ensures forall keyArn, listed, b, meta :: old(clock) + 40 <= b ==>
        CalmWith(o, timeline, lists, services, keyArn, listed, old(clock), b, meta) && listing == Sorted(listed) ==> ok
    {
      hide KeysBetween, Lists, CalmWith, Sorted;
      ghost var s: nat := clock;
      var again := ListKeys(o.checkpoint);
      ghost var t: nat := clock;
      forall keyArn, listed, b: nat, meta | s + 40 <= b
        ensures CalmWith(o, timeline, lists, services, keyArn, listed, s, b, meta) ==>
          again == Some(Sorted(listed)) && Lists(lists(o.locks), o.locks, t, {})
      {
        CalmAt(o, timeline, lists, services, keyArn, listed, s, b, meta, s);
        CalmAt(o, timeline, lists, services, keyArn, listed, s, b, meta, t);
      }
      if again != Some(listing) {
        return false;
      }
      ok := ListNone(o.locks);
      if ok {
        KeysWiden(lists(o.checkpoint), o.checkpoint, s - 1, t, s - 1, clock, Elements(listing));
        KeysWiden(lists(o.locks), o.locks, t - 1, clock, s, clock, {});
      }
    }

    /** The metadata head, the key, the caller and the bucket's versioning, each as before. */
    method RecheckServices(meta: Head, keyArn: Option<Text>) returns (ok: bool)
      modifies this
      ensures clock == old(clock) + 4
      ensures ok <==>
        && HeadAt(timeline(old(clock)), o.meta, o.metaLimit, o.keyArn) == Some(meta)
        && services(old(clock) + 1).keyArn == keyArn
        && services(old(clock) + 2).expectedCaller && services(old(clock) + 3).versioned
    {
      hide HeadAt;
      var head := ReadHead(o.meta, o.metaLimit);
      var key := services(clock).keyArn;
      ok := head == Some(meta) && key == keyArn && services(clock + 1).expectedCaller && services(clock + 2).versioned;
      clock := clock + 3;
    }

    /** The last part of an observation: nothing looked at before has changed. */
    method Recheck(listing: seq<Text>, meta: Head, keyArn: Option<Text>, ghost arn: Text, ghost listed: set<Text>)
      returns (ok: bool)
      modifies this
      ensures old(clock) < clock <= old(clock) + 44
      ensures CalmWith(o, timeline, lists, services, arn, listed, old(clock), old(clock) + 44, meta) ==>
        listing == Sorted(listed) && keyArn == Some(arn) ==> ok
      ensures ok ==>
        && old(clock) + 5 < clock
        && HeadAt(timeline(clock - 4), o.meta, o.metaLimit, o.keyArn) == Some(meta)
        && services(clock - 3).keyArn == keyArn
        && services(clock - 2).expectedCaller && services(clock - 1).versioned
        && KeysBetween(lists(o.locks), o.locks, old(clock), clock - 4, {})
        && KeysBetween(lists(o.checkpoint), o.checkpoint, old(clock) - 1, clock - 4, Elements(listing))
    {
      hide KeysBetween, HeadAt, Lists, CalmWith, Settled, Sorted;
      ghost var s: nat := clock;
      ok := RecheckListing(listing);
      if ok {
        CalmAt(o, timeline, lists, services, arn, listed, s, s + 44, meta, clock);
        CalmAt(o, timeline, lists, services, arn, listed, s, s + 44, meta, clock + 1);
        CalmAt(o, timeline, lists, services, arn, listed, s, s + 44, meta, clock + 2);
        CalmAt(o, timeline, lists, services, arn, listed, s, s + 44, meta, clock + 3);
        ok := RecheckServices(meta, keyArn);
      }
    }

    /** The caller, the bucket's versioning and the encryption key, asked one after the other. */
    method AskServices() returns (keyArn: Option<Text>)
      modifies this
      ensures clock == old(clock) + 3
      ensures keyArn ==
        if services(old(clock)).expectedCaller && services(old(clock) + 1).versioned
        then services(old(clock) + 2).keyArn else None
    {
      keyArn :=
        if services(clock).expectedCaller && services(clock + 1).versioned then services(clock + 2).keyArn else None;
      clock := clock + 3;
    }

    /** The state of the checkpoint, if it is listed. */
    method ObserveState(listing: seq<Text>)
      returns (r: Option<(State, seq<Members>)>, ghost v: Version, ghost last: nat)
      requires AppendOnly(timeline)
      modifies this
      ensures old(clock) <= last <= clock <= old(clock) + 4
      ensures Settled(o, timeline, old(clock)) ==> r.Some?
      ensures r.Some? && o.checkpoint in listing ==>
        && r.value.0.ObservedCheckpoint?
        && LatestThroughout(timeline, o.checkpoint, v, old(clock), last)
        && StateDescribes(o, r.value.0, r.value.1, v)
      ensures o.checkpoint !in listing ==> r == Some((ObservedAbsence, []))
    {
      hide LatestThroughout, StateDescribes, AppendOnly, Settled;
      v, last := Version([], [], [], [], None, true), clock;
      if o.checkpoint !in listing {
        return Some((ObservedAbsence, [])), v, last;
      }
      r, v := ObserveCheckpoint();
      last := clock - 1;
    }

    /** No lock, then the checkpoint's listing without a compressed one. */
    method ObserveListing() returns (listing: Option<seq<Text>>)
      modifies this
      ensures old(clock) < clock <= old(clock) + 40
      ensures listing.Some? ==>
        && o.compressed !in listing.value
        && KeysBetween(lists(o.locks), o.locks, old(clock) - 1, clock, {})
        && KeysBetween(lists(o.checkpoint), o.checkpoint, old(clock), clock, Elements(listing.value))
      ensures forall keyArn, listed, b, meta :: old(clock) + 40 <= b ==>
        CalmWith(o, timeline, lists, services, keyArn, listed, old(clock), b, meta) ==> listing == Some(Sorted(listed))
    {
      hide KeysBetween, Lists, CalmWith;
      ghost var start: nat := clock;
      var unlocked := ListNone(o.locks);
      ghost var t := clock;
      forall keyArn, listed, b: nat, meta | start + 40 <= b
        ensures CalmWith(o, timeline, lists, services, keyArn, listed, start, b, meta) ==>
          unlocked && Lists(lists(o.checkpoint), o.checkpoint, t, listed) && o.compressed !in Sorted(listed)
      {
        CalmAt(o, timeline, lists, services, keyArn, listed, start, b, meta, start);
        CalmAt(o, timeline, lists, services, keyArn, listed, start, b, meta, t);
        SortedElements(listed);
      }
      if !unlocked {
        return None;
      }
      listing := ListKeys(o.checkpoint);
      if listing.None? || o.compressed in listing.value {
        return None;
      }
      KeysWiden(lists(o.locks), o.locks, start - 1, t, start - 1, clock, {});
      KeysWiden(lists(o.checkpoint), o.checkpoint, t - 1, clock, start, clock, Elements(listing.value));
    }

    /** Locks, listing and checkpoint, and everything once more, around one metadata head. */
    method ObserveUnlocked(meta: Head, keyArn: Text, ghost expected: set<Text>)
      returns (r: Option<(State, seq<Members>)>, ghost v: Version, ghost first: nat, ghost last: nat,
               ghost listed: set<Text>)
      requires AppendOnly(timeline)
      modifies this
      ensures old(clock) < clock <= old(clock) + 88
      ensures CalmWith(o, timeline, lists, services, keyArn, expected, old(clock), old(clock) + 88, meta) ==>
        r.Some? && listed == expected
      ensures r.Some? ==>
        && old(clock) < first <= last && last + 5 < clock
        && HeadAt(timeline(clock - 4), o.meta, o.metaLimit, o.keyArn) == Some(meta)
        && services(clock - 3).keyArn == Some(keyArn)
        && services(clock - 2).expectedCaller && services(clock - 1).versioned
        && KeysBetween(lists(o.locks), o.locks, old(clock) - 1, first, {})
        && KeysBetween(lists(o.locks), o.locks, last, clock - 4, {})
        && KeysBetween(lists(o.checkpoint), o.checkpoint, old(clock), first, listed)
        && KeysBetween(lists(o.checkpoint), o.checkpoint, last - 1, clock - 4, listed)
        && StateListed(o, r.value.0, r.value.1, listed)
      ensures r.Some? && r.value.0.ObservedCheckpoint? ==>
        LatestThroughout(timeline, o.checkpoint, v, first, last) && StateDescribes(o, r.value.0, r.value.1, v)
    {
      hide KeysBetween, HeadAt, LatestThroughout, StateDescribes, AppendOnly, Lists, CalmWith, Settled, Sorted;
      v, first, last, listed := Version([], [], [], [], None, true), 0, 0, {};
      ghost var start: nat := clock;
      var listing := ObserveListing();
      if listing.None? {
        return None, v, first, last, listed;
      }
      first, listed := clock, Elements(listing.value);
      SortedElements(expected);
      CalmAt(o, timeline, lists, services, keyArn, expected, start, start + 88, meta, first);
      r, v, last := ObserveState(listing.value);
      if r.Some? {
        ghost var seen := clock;
        CalmWithLater(o, timeline, lists, services, keyArn, expected, start, start + 88, meta, seen, seen + 44);
        var same := Recheck(listing.value, meta, Some(keyArn), keyArn, expected);
        if same {
          KeysWiden(lists(o.locks), o.locks, seen, clock - 4, last, clock - 4, {});
          KeysWiden(lists(o.checkpoint), o.checkpoint, seen - 1, clock - 4, last - 1, clock - 4, listed);
        } else {
          r := None;
        }
      }
    }

    /** `_capture_backend`, in the order the program asks. */
    method CaptureBackend() returns (r: Option<Capture>, ghost w: Witness)
      requires AppendOnly(timeline)
      modifies this
      ensures old(clock) < clock <= old(clock) + 94
      ensures forall listed :: Quiet(o, timeline, lists, services, listed, old(clock)) ==>
        r.Some? && w.listed == listed
      ensures r.Some? ==>
        && Observed(o, timeline, r.value, w) && old(clock) < w.metaFirst && w.metaLast < clock
        && Surrounded(o, lists, r.value, w)
        && services(old(clock)).expectedCaller && services(old(clock) + 1).versioned
        && services(clock - 2).expectedCaller && services(clock - 1).versioned
        && services(old(clock) + 2).keyArn == services(clock - 3).keyArn == Some(r.value.keyArn)
    {
      hide KeysBetween, StateListed, HeadAt, LatestThroughout, StateDescribes, Observed, AppendOnly, CalmWith, Quiet;
      hide Steady, Latest, Surrounded, HeadOf, Elements;
      ghost var none := Version([], [], [], [], None, true);
      r, w := None, Witness(none, 0, 0, none, 0, 0, {});
      ghost var expected := QuietListing(o, timeline, lists, services, clock);
      var keyArn := AskServices();
      if keyArn.None? {
        return;
      }
      ghost var metaFirst := clock;
      var meta;
      ghost var metaVersion;
      meta, metaVersion := ReadPinned(o.meta, o.metaLimit);
      if meta.Some? {
        LatestAt(timeline, o.meta, metaVersion, metaFirst, metaFirst + 2, metaFirst);
      }
      if meta.None? || !o.metaOk(meta.value.1) {
        return;
      }
      ghost var middle := clock;
      var state;
      ghost var v, first, last, listed;
      state, v, first, last, listed := ObserveUnlocked(meta.value.0, keyArn.value, expected);
      if state.Some? {
        w := Witness(v, first, last, metaVersion, metaFirst, clock - 4, listed);
        r := Some(Capture(keyArn.value, meta.value.0, state.value.0, state.value.1));
        IsObserved(o, timeline, r.value, w);
        IsSurrounded(o, lists, r.value, w, middle);
      }
    }
  }

  lemma {:induction false} IsSurrounded(o: Observer, lists: Key -> Lister, c: Capture, w: Witness, middle: nat)
    requires w.metaFirst + 1 < middle
    requires KeysBetween(lists(o.locks), o.locks, middle - 1, w.first, {})
    requires KeysBetween(lists(o.locks), o.locks, w.last, w.metaLast, {})
    requires KeysBetween(lists(o.checkpoint), o.checkpoint, middle, w.first, w.listed)
    requires KeysBetween(lists(o.checkpoint), o.checkpoint, w.last - 1, w.metaLast, w.listed)
    requires StateListed(o, c.state, c.resources, w.listed)
    ensures Surrounded(o, lists, c, w)
  {
    hide ListedKeys, StateListed;
  }

  /** The version read between two equal heads is the latest at all three moments. */
  lemma {:induction false} PinnedIsLatest(
    timeline: Timeline, key: Key, limit: nat, keyArn: Text -> bool, head: Head, v: Version, t: nat)
    requires AppendOnly(timeline)
    requires HeadAt(timeline(t), key, limit, keyArn) == HeadAt(timeline(t + 2), key, limit, keyArn) == Some(head)
    requires ReadAt(timeline(t + 1), key, head.id, head.etag) == Some(v)
    ensures LatestThroughout(timeline, key, v, t, t + 2) && head == HeadOf(v)
  {
    hide AppendOnly, HeadAt, Latest, LatestThroughout, Pick;
    HeadIsLatest(timeline(t), key, limit, keyArn, head);
    HeadIsLatest(timeline(t + 2), key, limit, keyArn, head);
    var first := Latest(timeline(t), key).value;
    SameIdThroughout(timeline, key, first, Latest(timeline(t + 2), key).value, t, t + 2);
    LatestAt(timeline, key, first, t, t + 2, t + 1);
    IdsDistinct(timeline, t + 1, key);
    PickedIsLatest(timeline(t + 1), key, v, first);
  }

  lemma {:induction false} HeadIsLatest(store: Store, key: Key, limit: nat, keyArn: Text -> bool, head: Head)
    requires HeadAt(store, key, limit, keyArn) == Some(head)
    ensures Latest(store, key).Some? && head == HeadOf(Latest(store, key).value)
  {
  }

  lemma {:induction false} LatestAt(timeline: Timeline, key: Key, v: Version, first: nat, last: nat, t: nat)
    requires LatestThroughout(timeline, key, v, first, last) && first <= t <= last
    ensures Latest(timeline(t), key) == Some(v)
  {
  }

  /** A head seen again later is that of the same version, which was latest in between. */
  lemma {:induction false} StillLatest(
    timeline: Timeline, key: Key, limit: nat, keyArn: Text -> bool, v: Version, first: nat, last: nat)
    requires AppendOnly(timeline) && first + 2 <= last && LatestThroughout(timeline, key, v, first, first + 2)
    requires HeadAt(timeline(last), key, limit, keyArn) == Some(HeadOf(v))
    ensures LatestThroughout(timeline, key, v, first, last)
  {
    hide AppendOnly, HeadAt, Latest, LatestThroughout;
    LatestAt(timeline, key, v, first, first + 2, first);
    HeadIsLatest(timeline(last), key, limit, keyArn, HeadOf(v));
    SameIdThroughout(timeline, key, v, Latest(timeline(last), key).value, first, last);
  }

  lemma {:induction false} IdsDistinct(timeline: Timeline, t: nat, key: Key)
    requires AppendOnly(timeline)
    ensures DistinctIds(VersionsOf(timeline(t), key))
  {
  }

  lemma {:induction false} PickedIsLatest(store: Store, key: Key, v: Version, latest: Version)
    requires DistinctIds(VersionsOf(store, key)) && Latest(store, key) == Some(latest)
    requires v in VersionsOf(store, key) && v.id == latest.id
    ensures v == latest
  {
  }

  lemma {:induction false} IsObserved(o: Observer, timeline: Timeline, c: Capture, w: Witness)
    requires AppendOnly(timeline)
    requires w.metaFirst + 2 < w.first <= w.last < w.metaLast
    requires LatestThroughout(timeline, o.meta, w.meta, w.metaFirst, w.metaFirst + 2)
    requires c.meta == HeadOf(w.meta) && o.metaOk(w.meta.body)
    requires HeadAt(timeline(w.metaLast), o.meta, o.metaLimit, o.keyArn) == Some(c.meta)
    requires c.state.ObservedCheckpoint? ==>
      LatestThroughout(timeline, o.checkpoint, w.version, w.first, w.last)
      && StateDescribes(o, c.state, c.resources, w.version)
    ensures Observed(o, timeline, c, w)
  {
    hide AppendOnly, StateDescribes, LatestThroughout, HeadAt;
    StillLatest(timeline, o.meta, o.metaLimit, o.keyArn, w.meta, w.metaFirst, w.metaLast);
  }

  // ---------------------------------------------------------------- what the listings prove

  /** The keys that have an object at a moment. */
  function CurrentKeys(store: Store): set<Key> {
    set k | k in store && Latest(store, k).Some? && !Latest(store, k).value.deleted
  }

  function Currently(timeline: Timeline): nat -> set<Key> {
    t => CurrentKeys(timeline(t))
  }

  /** The server lists what the store holds when asked. */
  ghost predicate HonestServer(timeline: Timeline, lists: Key -> Lister, cursor: Text -> Text) {
    forall prefix, t, n :: HonestAt(timeline, lists, cursor, prefix, t, n)
  }

  ghost predicate HonestAt(
    timeline: Timeline, lists: Key -> Lister, cursor: Text -> Text, prefix: Key, t: nat, n: nat)
  {
    Honest(lists(prefix), prefix, t, n, Currently(timeline), cursor)
  }

  /** The key had no object at some moment after `a` and before `b`. */
  ghost predicate AbsentBetween(timeline: Timeline, key: Key, a: int, b: int) {
    exists t: nat :: a < t < b && key !in CurrentKeys(timeline(t))
  }

  /** The key had one. */
  ghost predicate PresentBetween(timeline: Timeline, key: Key, a: int, b: int) {
    exists t: nat :: a < t < b && key in CurrentKeys(timeline(t))
  }

  /** A key a listing lacks was absent, and a key it has was present, at the time of one of its requests. */
  lemma {:induction false} ListingProves(
    timeline: Timeline, lists: Key -> Lister, cursor: Text -> Text, prefix: Key, a: int, b: int, keys: set<Text>,
    key: Key)
    requires HonestServer(timeline, lists, cursor) && KeysBetween(lists(prefix), prefix, a, b, keys)
    ensures prefix <= key && key !in keys ==> AbsentBetween(timeline, key, a, b)
    ensures key in keys ==> PresentBetween(timeline, key, a, b)
  {
    hide Finishes, Honest, KeySet, Listed;
    var t: nat, n: nat :| a < t && t + n <= b && ListedKeys(lists(prefix), prefix, t, n, keys);
    assert HonestAt(timeline, lists, cursor, prefix, t, n);
    if key in keys {
      var i := PresenceProof(lists(prefix), prefix, t, n, Currently(timeline), cursor, key);
      assert key in CurrentKeys(timeline(t + i));
    } else if prefix <= key {
      AbsenceProof(lists(prefix), prefix, t, n, Currently(timeline), cursor, key);
      var i :| 0 <= i < n && !CurrentAt(Currently(timeline), t, i, key);
      assert key !in CurrentKeys(timeline(t + i));
    }
  }

  /**
   What a capture proves about an honest server's store: before and after the checkpoint was read, every lock
   was absent at some moment; a checkpoint reported absent was, and a compressed one always, absent at some
   moment before and some moment after.
   */
  lemma {:induction false} CaptureProves(
    o: Observer, timeline: Timeline, lists: Key -> Lister, cursor: Text -> Text, c: Capture, w: Witness, lock: Key)
    requires HonestServer(timeline, lists, cursor) && Surrounded(o, lists, c, w) && o.locks <= lock
    ensures AbsentBetween(timeline, lock, w.metaFirst, w.first) && AbsentBetween(timeline, lock, w.last, w.metaLast)
    ensures c.state.ObservedAbsence? ==>
      && AbsentBetween(timeline, o.checkpoint, w.metaFirst, w.first)
      && AbsentBetween(timeline, o.checkpoint, w.last - 1, w.metaLast)
    ensures o.checkpoint <= o.compressed ==>
      && AbsentBetween(timeline, o.compressed, w.metaFirst, w.first)
      && AbsentBetween(timeline, o.compressed, w.last - 1, w.metaLast)
  {
    hide KeysBetween, HonestServer, AbsentBetween, PresentBetween;
    ListingProves(timeline, lists, cursor, o.locks, w.metaFirst, w.first, {}, lock);
    ListingProves(timeline, lists, cursor, o.locks, w.last, w.metaLast, {}, lock);
    ListingProves(timeline, lists, cursor, o.checkpoint, w.metaFirst, w.first, w.listed, o.checkpoint);
    ListingProves(timeline, lists, cursor, o.checkpoint, w.last - 1, w.metaLast, w.listed, o.checkpoint);
    ListingProves(timeline, lists, cursor, o.checkpoint, w.metaFirst, w.first, w.listed, o.compressed);
    ListingProves(timeline, lists, cursor, o.checkpoint, w.last - 1, w.metaLast, w.listed, o.compressed);
  }
}
