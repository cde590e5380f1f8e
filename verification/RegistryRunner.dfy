/**
 The trusted registry runner (scripts/poc_registry_runner.py): a snapshot before planning, the plan gate on a
 second snapshot, and the proof that both are the same version of the checkpoint.
 */
module RegistryRunner {
  import opened ByteStrings
  import opened Options
  import opened Texts
  import opened Json
  import opened RegistryPlan
  import BackendListing
  import opened BackendSnapshot
  import R = RegistryRows

  /**
   How documents are read: `rows` types the checkpoint's resources, `saved` and `preview` read the artifacts;
   each fails on what the gate would not accept as one.
   */
  datatype Readers = Readers(
    rows: seq<Members> -> Option<seq<R.Row>>, saved: Bytes -> Option<SavedPlan>, preview: Bytes -> Option<Preview>)

  /** The provider identity of the prepared stack; `fixed` is its constant part. */
  datatype Identity = Identity(fixed: bool, keyArn: Text, versionId: Text, etag: Text)

  /** The two artifacts, read when the gate begins and again when it ends. */
  datatype Artifacts = Artifacts(plan: Bytes, preview: Bytes)

  /** An observation begun at `t` finds nothing happening, and the checkpoint in version `v`, which the gate can use. */
  ghost predicate Ready(b: Backend, site: R.Site, readers: Readers, t: nat, v: Version) {
    && (exists listed :: Quiet(b.o, b.timeline, b.lists, b.services, listed, t) && b.o.checkpoint in listed)
    && Latest(b.timeline(t), b.o.checkpoint) == Some(v) && b.o.decode(v.body).Some?
    && readers.rows(b.o.decode(v.body).value.rows).Some?
    && PriorOk(site, readers.rows(b.o.decode(v.body).value.rows).value)
  }

  /** While nothing happens the version observed is the one there at the start. */
  lemma {:induction false} QuietVersion(
    o: Observer, timeline: Timeline, lists: Key -> BackendListing.Lister, services: nat -> Services, listed: set<Text>,
    t: nat, c: Capture, w: Witness)
    requires Quiet(o, timeline, lists, services, listed, t) && o.checkpoint in listed
    requires Observed(o, timeline, c, w) && c.state.ObservedCheckpoint? && t <= w.first <= t + 94
    ensures Latest(timeline(t), o.checkpoint) == Some(w.version)
  {
    hide Lists, SoundCheckpoint, SoundMetadata, StateDescribes, Latest, HeadAt, Stable;
    var keyArn :| CalmFrom(o, timeline, lists, services, keyArn, listed, t);
    StableHeads(o, timeline, o.checkpoint, o.limit, t, t + WINDOW, w.first);
    LatestAt(timeline, o.checkpoint, w.version, w.first, w.last, w.first);
  }

  /** `_capture`: a snapshot of a checkpoint whose rows the registry gate knows, the other inventories agreeing. */
  method RegistryCapture(b: Backend, site: R.Site, readers: Readers, inventoriesAgree: bool)
    returns (r: Option<Capture>, ghost w: Witness)
    requires AppendOnly(b.timeline)
    modifies b
    ensures old(b.clock) < b.clock <= old(b.clock) + 94
    ensures forall v :: Ready(b, site, readers, old(b.clock), v) && inventoriesAgree ==> r.Some? && w.version == v
    ensures r.Some? ==>
      && inventoriesAgree && Observed(b.o, b.timeline, r.value, w) && r.value.state.ObservedCheckpoint?
      && readers.rows(r.value.resources).Some? && PriorOk(site, readers.rows(r.value.resources).value)
      && old(b.clock) < w.metaFirst && w.metaLast < b.clock
      && b.services(old(b.clock) + 2).keyArn == Some(r.value.keyArn)
  {
    hide Observed, PriorOk, AppendOnly, LatestThroughout, Quiet, Surrounded;
    ghost var start := b.clock;
    r, w := b.CaptureBackend();
    if r.Some? {
      ObservedTimes(b.o, b.timeline, r.value, w);
      SurroundedListed(b.o, b.lists, r.value, w);
      forall v, listed | Ready(b, site, readers, start, v)
        && Quiet(b.o, b.timeline, b.lists, b.services, listed, start) && b.o.checkpoint in listed
        ensures r.value.state.ObservedCheckpoint? && w.version == v
        ensures readers.rows(r.value.resources) == readers.rows(b.o.decode(v.body).value.rows)
      {
        QuietVersion(b.o, b.timeline, b.lists, b.services, listed, start, r.value, w);
        ObservedRows(b.o, b.timeline, r.value, w);
      }
      var rows := readers.rows(r.value.resources);
      if !r.value.state.ObservedCheckpoint? || rows.None? {
        return None, w;
      }
      var prior := Prior(site, rows.value);
      if prior.None? || !inventoriesAgree {
        return None, w;
      }
    }
  }

  /** `_binding`. */
  predicate Bound(identity: Identity, c: Capture) {
    && identity.fixed && c.state.ObservedCheckpoint?
    && identity.keyArn == c.keyArn && identity.versionId == c.state.head.id && identity.etag == c.state.head.etag
  }

  /** Two captures in the same state saw the same version, which was latest from the first to the second. */
  lemma {:induction false} SameStateSameVersion(
    o: Observer, timeline: Timeline, initial: Capture, w: Witness, current: Capture, x: Witness)
    requires AppendOnly(timeline) && Observed(o, timeline, initial, w) && Observed(o, timeline, current, x)
    requires initial.state.ObservedCheckpoint? && initial.state == current.state && w.last < x.first
    ensures w.version == x.version && initial.resources == current.resources
    ensures LatestThroughout(timeline, o.checkpoint, w.version, w.first, x.last)
  {
    hide AppendOnly, CheckpointOk, IsPublic;
    assert Latest(timeline(w.first), o.checkpoint) == Some(w.version);
    assert Latest(timeline(x.last), o.checkpoint) == Some(x.version);
    SameIdThroughout(timeline, o.checkpoint, w.version, x.version, w.first, x.last);
  }

  /** What the gate judged: the plan against one version's rows, latest from before planning until now. */
  ghost predicate JudgedOnInitial(
    b: Backend, site: R.Site, readers: Readers, w: Witness, artifacts: Artifacts, identity: Identity, last: nat)
  {
    && w.first <= last
    && LatestThroughout(b.timeline, b.o.checkpoint, w.version, w.first, last)
    && readers.saved(artifacts.plan).Some? && readers.preview(artifacts.preview).Some?
    && b.o.decode(w.version.body).Some? && readers.rows(b.o.decode(w.version.body).value.rows).Some?
    && Accepts(
      site, readers.preview(artifacts.preview).value, readers.saved(artifacts.plan).value,
      readers.rows(b.o.decode(w.version.body).value.rows).value, true)
    && identity.versionId == w.version.id && identity.etag == w.version.etag
  }

  /**
   What a gate begun at `t` asks for: the stack and the other inventories as reviewed, an identity bound to the version
   observed and to the key now in force, unchanged artifacts, and a plan that the version's rows accept.
   */
  ghost predicate MayPass(
    b: Backend, site: R.Site, readers: Readers, v: Version, identity: Identity, before: Artifacts, after: Artifacts,
    reviewed: bool, inventoriesAgree: bool, t: nat)
  {
    && reviewed && inventoriesAgree && after == before
    && identity.fixed && identity.versionId == v.id && identity.etag == v.etag
    && b.services(t + 2).keyArn == Some(identity.keyArn)
    && readers.saved(before.plan).Some? && readers.preview(before.preview).Some?
    && b.o.decode(v.body).Some? && readers.rows(b.o.decode(v.body).value.rows).Some?
    && Accepts(
      site, readers.preview(before.preview).value, readers.saved(before.plan).value,
      readers.rows(b.o.decode(v.body).value.rows).value, true)
  }

  /** `_gate`: passes only if the checkpoint is still the version of the initial capture. */
  method Gate(
    b: Backend, site: R.Site, readers: Readers, initial: Capture, ghost w: Witness, identity: Identity,
    before: Artifacts, after: Artifacts, reviewed: bool, inventoriesAgree: bool) returns (ok: bool, ghost last: nat)
    requires AppendOnly(b.timeline)
    requires Observed(b.o, b.timeline, initial, w) && initial.state.ObservedCheckpoint? && w.last < b.clock
    modifies b
    ensures old(b.clock) <= b.clock
    ensures ok ==>
      MayPass(b, site, readers, w.version, identity, before, after, reviewed, inventoriesAgree, old(b.clock))
    ensures Ready(b, site, readers, old(b.clock), w.version) ==>
      MayPass(b, site, readers, w.version, identity, before, after, reviewed, inventoriesAgree, old(b.clock)) ==> ok
    ensures ok ==> old(b.clock) < last < b.clock
    ensures ok ==> JudgedOnInitial(b, site, readers, w, before, identity, last)
  {
    hide AppendOnly, LatestThroughout, Accepts, PriorOk, Observed, CheckpointOk, IsPublic, Ready;
    last := 0;
    ghost var start := b.clock;
    var saved, preview := readers.saved(before.plan), readers.preview(before.preview);
    if !reviewed || saved.None? || preview.None? {
      return false, last;
    }
    var current;
    ghost var x;
    current, x := RegistryCapture(b, site, readers, inventoriesAgree);
    if current.Some? && x.version == w.version {
      ObservedState(b.o, b.timeline, initial, w);
      ObservedState(b.o, b.timeline, current.value, x);
      StateUnique(b.o, initial.state, initial.resources, current.value.state, current.value.resources, w.version);
      ObservedRows(b.o, b.timeline, current.value, x);
    }
    if current.None? || current.value.state != initial.state || !Bound(identity, current.value) {
      return false, last;
    }
    ObservedTimes(b.o, b.timeline, initial, w);
    ObservedTimes(b.o, b.timeline, current.value, x);
    SameStateSameVersion(b.o, b.timeline, initial, w, current.value, x);
    ObservedRows(b.o, b.timeline, current.value, x);
    var accepted := Validate(site, preview.value, saved.value, readers.rows(current.value.resources).value, true);
    ok := accepted && after == before;
    last := x.last;
  }

  lemma {:induction false} SurroundedListed(o: Observer, lists: Key -> BackendListing.Lister, c: Capture, w: Witness)
    requires Surrounded(o, lists, c, w)
    ensures c.state.ObservedCheckpoint? <==> o.checkpoint in w.listed
  {
    hide KeysBetween;
  }

  /** Two descriptions of one version are the same. */
  lemma {:induction false} StateUnique(
    o: Observer, a: State, rows: seq<Members>, b: State, rows': seq<Members>, v: Version)
    requires StateDescribes(o, a, rows, v) && StateDescribes(o, b, rows', v)
    ensures a == b && rows == rows'
  {
    hide CheckpointOk, InventoryOf, Public, UrnOf;
    var x :| IsPublic(x, rows) && a.inventory == InventoryOf(o, |rows|, x);
    var y :| IsPublic(y, rows) && b.inventory == InventoryOf(o, |rows|, y);
    PublicUnique(x, y, rows);
  }

  lemma {:induction false} PublicUnique(a: map<Text, Members>, b: map<Text, Members>, rows: seq<Members>)
    requires IsPublic(a, rows) && IsPublic(b, rows)
    ensures a == b
  {
    hide Public, UrnOf;
  }

  lemma {:induction false} ObservedTimes(o: Observer, timeline: Timeline, c: Capture, w: Witness)
    requires Observed(o, timeline, c, w)
    ensures w.metaFirst < w.first <= w.last < w.metaLast
  {
  }

  lemma {:induction false} ObservedState(o: Observer, timeline: Timeline, c: Capture, w: Witness)
    requires Observed(o, timeline, c, w) && c.state.ObservedCheckpoint?
    ensures StateDescribes(o, c.state, c.resources, w.version)
  {
    hide StateDescribes, LatestThroughout;
  }

  lemma {:induction false} ObservedRows(o: Observer, timeline: Timeline, c: Capture, w: Witness)
    requires Observed(o, timeline, c, w) && c.state.ObservedCheckpoint?
    ensures o.decode(w.version.body).Some? && c.resources == o.decode(w.version.body).value.rows
    ensures c.state.head == HeadOf(w.version)
  {
  }

  /** From `t` until planning is over nothing happens, and a gate begun at any moment has what it asks for. */
  ghost predicate ClearWhile(
    b: Backend, site: R.Site, readers: Readers, v: Version, identity: Identity, before: Artifacts, after: Artifacts,
    reviewed: bool, t: nat, planning: nat)
  {
    && (forall k: nat | t <= k <= t + 94 + planning :: Ready(b, site, readers, k, v))
    && (forall k: nat | t <= k <= t + 94 + planning ::
      MayPass(b, site, readers, v, identity, before, after, reviewed, true, k))
  }

  /** `execute` up to the dispatch of the plan: a capture, any delay for planning, then the gate. */
  method CaptureThenGate(
    b: Backend, site: R.Site, readers: Readers, identity: Identity, planning: nat, before: Artifacts, after: Artifacts,
    reviewed: bool, inventoriesAgree: bool, stillAgree: bool)
    returns (ok: bool, ghost w: Witness, ghost last: nat)
    requires AppendOnly(b.timeline)
    modifies b
    ensures inventoriesAgree && stillAgree ==> forall v ::
      ClearWhile(b, site, readers, v, identity, before, after, reviewed, old(b.clock), planning) ==>
        ok && w.version == v
    ensures ok ==>
      && reviewed && inventoriesAgree && stillAgree && after == before
      && old(b.clock) < w.first && w.last + planning < last < b.clock
      && JudgedOnInitial(b, site, readers, w, before, identity, last)
  {
    hide AppendOnly, Observed, PriorOk, JudgedOnInitial, Ready;
    last := 0;
    var initial;
    ghost var start := b.clock;
    initial, w := RegistryCapture(b, site, readers, inventoriesAgree);
    forall v | ClearWhile(b, site, readers, v, identity, before, after, reviewed, start, planning)
      ensures Ready(b, site, readers, start, v)
    {
    }
    if initial.None? {
      return false, w, last;
    }
    ObservedTimes(b.o, b.timeline, initial.value, w);
    b.Wait(planning);
    ok, last := Gate(b, site, readers, initial.value, w, identity, before, after, reviewed, stillAgree);
  }
}
