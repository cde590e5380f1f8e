/**
 Convergence of an environment's deployment branch policies to one `main` rule
 (`_validated_branch_policies` and `_configure_main_branch_policy` in
 scripts/configure_github_repository_controls.py), over calls that may fail before or after taking effect.
 */
module BranchPolicies {
  import opened Options
  import opened Texts
  import opened Json

  const MAIN: Text := T("main")
  const BRANCH: Text := T("branch")
  const TAG: Text := T("tag")
  const POLICIES: Text := T("branch_policies")
  const COUNT: Text := T("total_count")

  // ---------------------------------------------------------------- the listing

  datatype Record = Record(id: int, name: Text, kind: Text) {
    predicate IsMain() {
      name == MAIN && kind == BRANCH
    }
  }

  function Field(v: Value, key: Text): Value {
    if v.Obj? && key in v.members then v.members[key] else Null
  }

  /** `_validated_branch_policy`: booleans are not ids, and names are trimmed and not blank. */
  function Validated(v: Value): Option<Record> {
    var id, name, kind := Field(v, T("id")), Field(v, T("name")), Field(v, T("type"));
    if v.Obj? && id.Int? && id.n > 0 && name.Str? && Trimmed(name.s)
      && (kind == Str(BRANCH) || kind == Str(TAG))
    then Some(Record(id.n, name.s, kind.s)) else None
  }

  function Items(response: Value): seq<Value> {
    if Field(response, POLICIES).Arr? then Field(response, POLICIES).items else []
  }

  predicate DistinctIds(records: seq<Record>) {
    forall i, j :: 0 <= i < j < |records| ==> records[i].id != records[j].id
  }

  function Ids(records: seq<Record>): set<int> {
    set i | 0 <= i < |records| :: records[i].id
  }

  function ValidatedAll(items: seq<Value>): Option<seq<Record>> {
    if items == [] then Some([])
    else
      var front :- ValidatedAll(items[..|items| - 1]);
      var last :- Validated(items[|items| - 1]);
      Some(front + [last])
  }

  /** The whole response is sound: every record, all ids distinct, nothing left out. */
  predicate ListingOk(response: Value) {
    && response.Obj? && Field(response, POLICIES).Arr?
    && ValidatedAll(Items(response)).Some? && DistinctIds(ValidatedAll(Items(response)).value)
    && Field(response, COUNT) == Int(|Items(response)|)
  }

  predicate ById(records: seq<Record>) {
    forall i, j :: 0 <= i < j < |records| ==> records[i].id < records[j].id
  }

  function Insert(records: seq<Record>, r: Record): seq<Record> {
    if records == [] then [r]
    else if r.id < records[0].id then [r] + records
    else [records[0]] + Insert(records[1..], r)
  }

  /** `sorted(records, key=id)`. */
  function Sort(records: seq<Record>): seq<Record> {
    if records == [] then [] else Insert(Sort(records[..|records| - 1]), records[|records| - 1])
  }

  lemma {:induction false} InsertHas(records: seq<Record>, r: Record)
    ensures |Insert(records, r)| == |records| + 1
    ensures forall x :: x in Insert(records, r) <==> x in records || x == r
  {
    if records != [] && !(r.id < records[0].id) {
      InsertHas(records[1..], r);
      assert records == [records[0]] + records[1..];
    }
  }

  lemma {:induction false} InsertOrdered(records: seq<Record>, r: Record)
    requires ById(records) && forall x :: x in records ==> x.id != r.id
    ensures ById(Insert(records, r))
  {
    if records != [] && !(r.id < records[0].id) {
      assert records[0] in records;
      assert forall x :: x in records[1..] ==> x in records;
      InsertOrdered(records[1..], r);
      var rest := Insert(records[1..], r);
      InsertHas(records[1..], r);
      forall i | 0 <= i < |rest| ensures records[0].id < rest[i].id {
        assert rest[i] in rest;
        if rest[i] in records[1..] {
          var j :| 0 <= j < |records[1..]| && records[1..][j] == rest[i];
          assert records[j + 1] == rest[i];
        }
      }
    }
  }

  lemma {:induction false} SortOrders(records: seq<Record>)
    requires DistinctIds(records)
    ensures ById(Sort(records)) && |Sort(records)| == |records|
    ensures forall x :: x in Sort(records) <==> x in records
  {
    hide Insert, ById;
    if records != [] {
      var front, last := records[..|records| - 1], records[|records| - 1];
      LastDiffers(records);
      SortOrders(front);
      InsertHas(Sort(front), last);
      InsertOrdered(Sort(front), last);
      assert records == front + [last];
    } else {
      NothingOrdered();
    }
  }

  lemma {:induction false} NothingOrdered()
    ensures ById([])
  {
  }

  lemma {:induction false} LastDiffers(records: seq<Record>)
    requires DistinctIds(records) && records != []
    ensures DistinctIds(records[..|records| - 1])
    ensures forall x :: x in records[..|records| - 1] ==> x.id != records[|records| - 1].id
  {
  }

  /** `_validated_branch_policies`: the records by id, if the whole response is sound. */
  method ValidatedPolicies(response: Value) returns (r: Option<seq<Record>>)
    ensures r.Some? <==> ListingOk(response)
    ensures r.Some? ==> ById(r.value) && forall x :: x in r.value <==> x in ValidatedAll(Items(response)).value
  {
    if !response.Obj? || !Field(response, POLICIES).Arr? {
      return None;
    }
    var items := Items(response);
    var result: seq<Record>, ids: set<int> := [], {};
    var distinct := true;
    for n := 0 to |items|
      invariant ValidatedAll(items[..n]) == Some(result)
      invariant ids == Ids(result) && distinct == DistinctIds(result)
    {
      assert items[..n + 1][..n] == items[..n];
      var record := Validated(items[n]);
      if record.None? {
        NotValidated(items, n + 1);
        return None;
      }
      distinct := distinct && record.value.id !in ids;
      DistinctNext(result, record.value);
      result, ids := result + [record.value], ids + {record.value.id};
    }
    assert items[..|items|] == items;
    if !distinct || Field(response, COUNT) != Int(|items|) {
      return None;
    }
    SortOrders(result);
    return Some(Sort(result));
  }

  lemma {:induction false} NotValidated(items: seq<Value>, n: nat)
    requires n <= |items| && ValidatedAll(items[..n]).None?
    ensures ValidatedAll(items).None?
    decreases |items|
  {
    if n < |items| {
      assert items[..|items| - 1][..n] == items[..n];
      NotValidated(items[..|items| - 1], n);
    } else {
      assert items[..n] == items;
    }
  }

  lemma {:induction false} DistinctNext(records: seq<Record>, r: Record)
    ensures DistinctIds(records + [r]) <==> DistinctIds(records) && r.id !in Ids(records)
    ensures Ids(records + [r]) == Ids(records) + {r.id}
  {
    var all := records + [r];
    assert all[|records|] == r && forall i :: 0 <= i < |records| ==> all[i] == records[i];
    forall id | id in Ids(records) + {r.id} ensures id in Ids(all) {
      if id == r.id {
        assert all[|records|].id == id;
      } else {
        var i :| 0 <= i < |records| && records[i].id == id;
        assert all[i].id == id;
      }
    }
  }

  // ---------------------------------------------------------------- the server

  datatype Policy = Policy(name: Text, kind: Text)

  type Policies = map<int, Policy>

  const MAIN_POLICY: Policy := Policy(MAIN, BRANCH)

  ghost predicate SmallestMain(ps: Policies, id: int) {
    id in ps && ps[id] == MAIN_POLICY && forall j :: j in ps && ps[j] == MAIN_POLICY ==> id <= j
  }

  predicate HasMain(ps: Policies) {
    exists id :: id in ps && ps[id] == MAIN_POLICY
  }

  predicate Lists(records: seq<Record>, ps: Policies) {
    && (forall r :: r in records ==> r.id in ps && ps[r.id] == Policy(r.name, r.kind))
    && (forall id :: id in ps ==> Record(id, ps[id].name, ps[id].kind) in records)
  }

  /** The server renders its policies completely, whenever it answers soundly. */
  ghost predicate Honest(listing: Policies -> Value) {
    forall ps :: ListingOk(listing(ps)) ==> Lists(ValidatedAll(Items(listing(ps))).value, ps)
  }

  /** How a call fails: without effect, or after it. */
  datatype Fault = Works | Before | After

  /** There is exactly one rule, `main`, with this id. */
  predicate OnlyMain(ps: Policies, id: int) {
    ps == map[id := MAIN_POLICY]
  }

  /** Every policy of `after` is one of `before`. */
  predicate Part(after: Policies, before: Policies) {
    forall id :: id in after ==> id in before && after[id] == before[id]
  }

  /**
   What one run does, complete or cut off: with a `main` rule, others are removed and its smallest stays;
   without one, the rules are removed, and only then a new one is made.
   */
  ghost predicate RunEffect(before: Policies, after: Policies, complete: bool) {
    if HasMain(before) then
      && Part(after, before)
      && (forall id :: SmallestMain(before, id) ==> id in after && (complete ==> OnlyMain(after, id)))
    else
      || (Part(after, before) && !complete)
      || exists id :: OnlyMain(after, id)
  }

  // ---------------------------------------------------------------- the loop

  /** Record `k` is the first `main` rule. */
  predicate Kept(records: seq<Record>, k: nat)
    requires k < |records|
  {
    records[k].IsMain() && forall j :: 0 <= j < k ==> !records[j].IsMain()
  }

  predicate Gone(records: seq<Record>, n: nat, id: int)
    requires n <= |records|
  {
    exists k :: 0 <= k < n && records[k].id == id && !Kept(records, k)
  }

  /** What is left once the first `n` records have been dealt with. */
  function Remaining(before: Policies, records: seq<Record>, n: nat): Policies
    requires n <= |records|
  {
    map id | id in before && !Gone(records, n, id) :: before[id]
  }

  predicate MainSeen(records: seq<Record>, n: nat)
    requires n <= |records|
  {
    exists k :: 0 <= k < n && records[k].IsMain()
  }

  lemma {:induction false} RemainingStep(before: Policies, records: seq<Record>, n: nat)
    requires n < |records| && ById(records)
    ensures Kept(records, n) <==> !MainSeen(records, n) && records[n].IsMain()
    ensures Remaining(before, records, n + 1) ==
      if Kept(records, n) then Remaining(before, records, n) else Remaining(before, records, n) - {records[n].id}
    ensures MainSeen(records, n + 1) <==> MainSeen(records, n) || records[n].IsMain()
  {
  }

  lemma {:induction false} RecordMain(records: seq<Record>, ps: Policies, k: nat)
    requires Lists(records, ps) && k < |records|
    ensures records[k].id in ps && (records[k].IsMain() <==> ps[records[k].id] == MAIN_POLICY)
  {
  }

  lemma {:induction false} SmallestStays(before: Policies, records: seq<Record>, n: nat, id: int)
    requires n <= |records| && ById(records) && Lists(records, before) && SmallestMain(before, id)
    ensures id in Remaining(before, records, n)
    ensures n == |records| ==> OnlyMain(Remaining(before, records, n), id)
  {
  }

  lemma {:induction false} NoneLeft(before: Policies, records: seq<Record>)
    requires Lists(records, before) && !MainSeen(records, |records|)
    ensures Remaining(before, records, |records|) == map[]
  {
  }

  lemma {:induction false} MainSeenHas(before: Policies, records: seq<Record>)
    requires Lists(records, before)
    ensures MainSeen(records, |records|) <==> HasMain(before)
  {
  }

  /** Wherever a run stops among its deletions, what it has done is a run's effect. */
  lemma {:induction false} PartialEffect(before: Policies, records: seq<Record>, n: nat)
    requires n <= |records| && ById(records) && Lists(records, before)
    ensures RunEffect(before, Remaining(before, records, n), n == |records| && MainSeen(records, n))
  {
    hide SmallestMain, Kept;
    MainSeenHas(before, records);
    forall id | SmallestMain(before, id)
      ensures id in Remaining(before, records, n)
      ensures n == |records| ==> OnlyMain(Remaining(before, records, n), id)
    {
      SmallestStays(before, records, n, id);
    }
  }

  class PolicyServer {
    const listing: Policies -> Value
    const newId: Policies -> int
    const faults: nat -> Fault
    var policies: Policies
    var calls: nat
    var mutations: nat
    ghost var states: seq<Policies>

    constructor (listing: Policies -> Value, newId: Policies -> int, faults: nat -> Fault, policies: Policies)
      ensures this.listing == listing && this.newId == newId && this.faults == faults && this.policies == policies
      ensures calls == 0 && mutations == 0 && states == []
    {
      this.listing, this.newId, this.faults, this.policies := listing, newId, faults, policies;
      this.calls, this.mutations, this.states := 0, 0, [];
    }

    ghost predicate Sound()
      reads this
    {
      forall i :: i >= calls ==> faults(i) == Works
    }

    method Get() returns (r: Option<Value>)
      modifies this`calls
      ensures r == if faults(old(calls)) == Works then Some(listing(policies)) else None
      ensures calls == old(calls) + 1
    {
      r := if faults(calls) == Works then Some(listing(policies)) else None;
      calls := calls + 1;
    }

    /** A mutating call: it counts even if it fails, and every state is remembered. */
    method Mutate(next: Policies) returns (ok: bool)
      modifies this
      ensures ok <==> faults(old(calls)) == Works
      ensures policies == if faults(old(calls)) == Before then old(policies) else next
      ensures states == old(states) + [policies]
      ensures mutations == old(mutations) + 1 && calls == old(calls) + 1
    {
      var fault := faults(calls);
      calls, mutations := calls + 1, mutations + 1;
      ok := fault == Works;
      if fault != Before {
        policies := next;
      }
      states := states + [policies];
    }

    /** The deletions of one run; it stops at the first that fails. */
    method DeleteOthers(records: seq<Record>) returns (ok: bool, mainExists: bool)
      requires ById(records) && Lists(records, policies)
      modifies this
      ensures ok ==>
        policies == Remaining(old(policies), records, |records|) && mainExists == MainSeen(records, |records|)
      ensures !ok ==> exists n :: 0 <= n <= |records| && policies == Remaining(old(policies), records, n)
      ensures |states| >= |old(states)| && states[..|old(states)|] == old(states)
      ensures forall i :: |old(states)| <= i < |states| ==>
        exists n :: 0 <= n <= |records| && states[i] == Remaining(old(policies), records, n)
      ensures old(Sound()) ==> ok && Sound()
      ensures (forall k :: 0 <= k < |records| ==> Kept(records, k)) ==> mutations == old(mutations)
    {
      ghost var before := policies;
      assert Remaining(before, records, 0) == before;
      mainExists := false;
      for n := 0 to |records|
        invariant policies == Remaining(before, records, n)
        invariant mainExists == MainSeen(records, n)
        invariant |states| >= |old(states)| && states[..|old(states)|] == old(states)
        invariant forall i :: |old(states)| <= i < |states| ==>
          exists m :: 0 <= m <= |records| && states[i] == Remaining(before, records, m)
        invariant old(Sound()) ==> Sound()
        invariant (forall k :: 0 <= k < |records| ==> Kept(records, k)) ==> mutations == old(mutations)
      {
        RemainingStep(before, records, n);
        if !mainExists && records[n].IsMain() {
          mainExists := true;
        } else {
          ok := Mutate(policies - {records[n].id});
          if !ok {
            return;
          }
        }
      }
      ok := true;
    }

    /** `_configure_main_branch_policy`: one run. */
    method Configure() returns (ok: bool)
      requires Honest(listing)
      modifies this
      ensures RunEffect(old(policies), policies, ok)
      ensures faults(old(calls)) != Works || !ListingOk(listing(old(policies))) ==>
        !ok && policies == old(policies) && mutations == old(mutations) && states == old(states)
      ensures |states| >= |old(states)| && states[..|old(states)|] == old(states)
      ensures forall i :: |old(states)| <= i < |states| ==> RunEffect(old(policies), states[i], false)
      ensures old(Sound()) && ListingOk(listing(old(policies))) ==> ok
      ensures forall id :: OnlyMain(old(policies), id) ==> policies == old(policies) && mutations == old(mutations)
    {
      hide Remaining, MainSeen, ById, Lists, ListingOk, RunEffect, Kept, Honest;
      ghost var before := policies;
      NoEffect(before);
      var response := Get();
      if response.None? {
        return false;
      }
      var records := ValidatedPolicies(response.value);
      if records.None? {
        return false;
      }
      HonestLists(listing, policies, records.value);
      forall n | 0 <= n <= |records.value|
        ensures RunEffect(before, Remaining(before, records.value, n), false)
        ensures n == |records.value| && MainSeen(records.value, n) ==>
          RunEffect(before, Remaining(before, records.value, n), true)
      {
        PartialEffect(before, records.value, n);
        Weaker(before, Remaining(before, records.value, n));
      }
      OneMainKept(before, records.value);
      var deleted, mainExists := DeleteOthers(records.value);
      if !deleted {
        return false;
      }
      if mainExists {
        return true;
      }
      NoneLeft(before, records.value);
      MainSeenHas(before, records.value);
      CreatedEffect(listing, newId, before);
      ok := Mutate(policies[newId(policies) := MAIN_POLICY]);
    }
  }

  lemma {:induction false} NoEffect(before: Policies)
    ensures RunEffect(before, before, false)
  {
  }

  lemma {:induction false} Weaker(before: Policies, after: Policies)
    ensures RunEffect(before, after, true) ==> RunEffect(before, after, false)
  {
  }

  lemma {:induction false} HonestLists(listing: Policies -> Value, ps: Policies, records: seq<Record>)
    requires Honest(listing) && ListingOk(listing(ps))
    requires forall x :: x in records <==> x in ValidatedAll(Items(listing(ps))).value
    ensures Lists(records, ps)
  {
  }

  lemma {:induction false} CreatedEffect(listing: Policies -> Value, newId: Policies -> int, before: Policies)
    requires !HasMain(before)
    ensures RunEffect(before, map[newId(map[]) := MAIN_POLICY], true)
    ensures RunEffect(before, map[newId(map[]) := MAIN_POLICY], false)
  {
    assert OnlyMain(map[newId(map[]) := MAIN_POLICY], newId(map[]));
  }

  /** A lone `main` rule: the loop keeps its only record. */
  lemma {:induction false} OneMainKept(before: Policies, records: seq<Record>)
    requires ById(records) && Lists(records, before)
    ensures forall id :: OnlyMain(before, id) ==> forall k :: 0 <= k < |records| ==> Kept(records, k)
    ensures forall id :: OnlyMain(before, id) ==> MainSeen(records, |records|)
    ensures forall id :: OnlyMain(before, id) ==>
      forall n :: 0 <= n <= |records| ==> Remaining(before, records, n) == before
  {
    forall id | OnlyMain(before, id)
      ensures forall k :: 0 <= k < |records| ==> Kept(records, k)
      ensures MainSeen(records, |records|)
      ensures forall n :: 0 <= n <= |records| ==> Remaining(before, records, n) == before
    {
      assert id in before && before[id] == MAIN_POLICY;
      MainSeenHas(before, records);
      forall k | 0 <= k < |records| ensures records[k].id == id && records[k].IsMain() {
        RecordMain(records, before, k);
      }
    }
  }

  // ---------------------------------------------------------------- series of runs

  /** Runs one after the other; `complete[i]` tells whether run `i` ended without a failed call. */
  ghost predicate Series(states: seq<Policies>, complete: seq<bool>) {
    && |states| == |complete| + 1
    && forall i :: 0 <= i < |complete| ==> RunEffect(states[i], states[i + 1], complete[i])
  }

  lemma {:induction false} SurvivorStays(before: Policies, after: Policies, complete: bool, id: int)
    requires RunEffect(before, after, complete) && SmallestMain(before, id)
    ensures SmallestMain(after, id)
  {
  }

  lemma {:induction false} SurvivorThroughout(states: seq<Policies>, complete: seq<bool>, i: nat, j: nat, id: int)
    requires Series(states, complete) && i <= j < |states| && SmallestMain(states[i], id)
    ensures SmallestMain(states[j], id)
    decreases j
  {
    hide SmallestMain, RunEffect;
    if i < j {
      SurvivorThroughout(states, complete, i, j - 1, id);
      assert RunEffect(states[j - 1], states[j - 1 + 1], complete[j - 1]);
      SurvivorStays(states[j - 1], states[j], complete[j - 1], id);
    }
  }

  lemma {:induction false} CompleteRun(before: Policies, after: Policies) returns (id: int)
    requires RunEffect(before, after, true)
    ensures OnlyMain(after, id)
  {
    if HasMain(before) {
      id := FindSmallest(before);
    } else {
      id :| OnlyMain(after, id);
    }
  }

  lemma {:induction false} FindSmallest(ps: Policies) returns (id: int)
    requires HasMain(ps)
    ensures SmallestMain(ps, id)
    decreases ps.Keys
  {
    var k :| k in ps && ps[k] == MAIN_POLICY;
    var rest := ps - {k};
    assert rest.Keys < ps.Keys;
    assert forall j :: j in ps && j != k ==> j in rest && rest[j] == ps[j];
    if HasMain(rest) {
      var other := FindSmallest(rest);
      id := if k < other then k else other;
    } else {
      id := k;
      assert forall j :: j in rest ==> rest[j] != MAIN_POLICY;
    }
  }

  /**
   Any series of runs, each cut off at any call or not, whose last is complete ends with exactly one rule,
   `main`, and it is the smallest-numbered `main` rule of every earlier state that had one.
   */
  lemma {:induction false} Converges(states: seq<Policies>, complete: seq<bool>) returns (id: int)
    requires Series(states, complete) && complete != [] && complete[|complete| - 1]
    ensures OnlyMain(states[|states| - 1], id)
    ensures forall i, j :: 0 <= i < |states| && SmallestMain(states[i], j) ==> j == id
  {
    hide RunEffect;
    var n := |complete| - 1;
    assert RunEffect(states[n], states[n + 1], complete[n]);
    id := CompleteRun(states[n], states[n + 1]);
    forall i, j | 0 <= i < |states| && SmallestMain(states[i], j) ensures j == id {
      SurvivorThroughout(states, complete, i, |states| - 1, j);
    }
  }

  // ---------------------------------------------------------------- the response, written out

  /** A record with a positive integer id, a name without blanks around it, and one of two types. */
  predicate SoundRecord(v: Value) {
    && v.Obj? && {T("id"), T("name"), T("type")} <= v.members.Keys
    && v.members[T("id")].Int? && v.members[T("id")].n >= 1
    && v.members[T("name")].Str? && |v.members[T("name")].s| >= 1
    && var name := v.members[T("name")].s;
    && !IsSpace(name[0]) && !IsSpace(name[|name| - 1])
    && (v.members[T("type")] == Str(T("branch")) || v.members[T("type")] == Str(T("tag")))
  }

  predicate SoundRecords(items: seq<Value>) {
    forall i :: 0 <= i < |items| ==> SoundRecord(items[i])
  }

  /** All records are sound, no id occurs twice, and the total says that none is left out. */
  predicate SoundResponse(response: Value) {
    && response.Obj? && T("branch_policies") in response.members && response.members[T("branch_policies")].Arr?
    && var items := response.members[T("branch_policies")].items;
    && SoundRecords(items)
    && (forall i, j :: 0 <= i < j < |items| ==> items[i].members[T("id")] != items[j].members[T("id")])
    && T("total_count") in response.members && response.members[T("total_count")] == Int(|items|)
  }

  function RecordOf(v: Value): Record
    requires SoundRecord(v)
  {
    Record(v.members[T("id")].n, v.members[T("name")].s, v.members[T("type")].s)
  }

  lemma {:induction false} RecordExactly(v: Value)
    ensures Validated(v).Some? <==> SoundRecord(v)
    ensures SoundRecord(v) ==> Validated(v) == Some(RecordOf(v))
  {
  }

  lemma {:induction false} RecordsExactly(items: seq<Value>)
    ensures ValidatedAll(items).Some? <==> SoundRecords(items)
    ensures SoundRecords(items) ==> |ValidatedAll(items).value| == |items|
    ensures SoundRecords(items) ==> forall i :: 0 <= i < |items| ==> ValidatedAll(items).value[i] == RecordOf(items[i])
  {
    hide SoundRecord, Validated, RecordOf;
    if items != [] {
      var n := |items| - 1;
      assert forall i :: 0 <= i < n ==> items[..n][i] == items[i];
      RecordsExactly(items[..n]);
      RecordExactly(items[n]);
      if SoundRecords(items) {
        forall i | 0 <= i < |items| ensures ValidatedAll(items).value[i] == RecordOf(items[i]) {
          assert i < n ==> ValidatedAll(items[..n]).value[i] == RecordOf(items[..n][i]);
        }
      }
    }
  }

  /** Exactly which responses are acted on, the records in them, and which of these are the `main` rule. */
  lemma {:induction false} ResponseExactly(response: Value)
    ensures ListingOk(response) <==> SoundResponse(response)
    ensures ListingOk(response) ==> |ValidatedAll(Items(response)).value| == |Items(response)|
    ensures ListingOk(response) ==> forall i :: 0 <= i < |Items(response)| ==>
      ValidatedAll(Items(response)).value[i] == RecordOf(Items(response)[i])
    ensures forall r: Record :: r.IsMain() <==> r.name == T("main") && r.kind == T("branch")
  {
    var items := Items(response);
    RecordsExactly(items);
    hide ValidatedAll;
    if SoundRecords(items) {
      var records := ValidatedAll(items).value;
      forall i | 0 <= i < |items| ensures items[i].members[T("id")] == Int(records[i].id) {
        assert SoundRecord(items[i]);
      }
    }
    hide SoundRecord, RecordOf;
  }

  // ---------------------------------------------------------------- an honest server

  predicate Listable(ps: Policies) {
    forall id :: id in ps ==> id > 0 && Trimmed(ps[id].name) && (ps[id].kind == T("branch") || ps[id].kind == T("tag"))
  }

  function Rendered(id: int, p: Policy): Value {
    Obj(map[T("id") := Int(id), T("name") := Str(p.name), T("type") := Str(p.kind)])
  }

  function Response(items: seq<Value>): Value {
    Obj(map[T("branch_policies") := Arr(items), T("total_count") := Int(|items|)])
  }

  /** The items render the policies, each once. */
  ghost predicate Renders(items: seq<Value>, ps: Policies, ids: seq<int>) {
    && |items| == |ids| && (forall i, j :: 0 <= i < j < |ids| ==> ids[i] != ids[j])
    && (forall i :: 0 <= i < |ids| ==> ids[i] in ps && items[i] == Rendered(ids[i], ps[ids[i]]))
    && (forall id :: id in ps ==> id in ids)
  }

  lemma {:induction false} SomeRendering(ps: Policies) returns (items: seq<Value>, ids: seq<int>)
    ensures Renders(items, ps, ids)
  {
    hide Rendered;
    if id :| id in ps {
      var rest := ps - {id};
      items, ids := SomeRendering(rest);
      forall i | 0 <= i < |ids| ensures ids[i] != id && ids[i] in ps && items[i] == Rendered(ids[i], ps[ids[i]]) {
        assert ids[i] in rest;
      }
      forall other | other in ps ensures other in ids + [id] {
        assert other != id ==> other in rest;
      }
      items, ids := items + [Rendered(id, ps[id])], ids + [id];
    } else {
      items, ids := [], [];
    }
  }

  lemma {:induction false} RenderedRecord(id: int, p: Policy)
    requires id > 0 && Trimmed(p.name) && (p.kind == T("branch") || p.kind == T("tag"))
    ensures SoundRecord(Rendered(id, p)) && RecordOf(Rendered(id, p)) == Record(id, p.name, p.kind)
  {
    assert |T("id")| == 2 && |T("name")| == 4 && |T("type")| == 4 && T("name")[0] == 'n' as int;
    assert T("type")[0] == 't' as int;
  }

  /** Every state with sound names and types has a response that is acted on and lists it. */
  lemma {:induction false} HonestResponse(ps: Policies) returns (response: Value)
    requires Listable(ps)
    ensures ListingOk(response) && Lists(ValidatedAll(Items(response)).value, ps)
  {
    var items, ids := SomeRendering(ps);
    response := Response(items);
    assert |T("branch_policies")| == 15 && |T("total_count")| == 11;
    forall i | 0 <= i < |ids|
      ensures SoundRecord(items[i]) && RecordOf(items[i]) == Record(ids[i], ps[ids[i]].name, ps[ids[i]].kind)
    {
      RenderedRecord(ids[i], ps[ids[i]]);
    }
    RenderedSound(items, ps, ids);
    ResponseExactly(response);
    RecordsExactly(items);
    assert Items(response) == items;
    RenderedLists(items, ps, ids, ValidatedAll(items).value);
  }

  lemma {:induction false} RenderedSound(items: seq<Value>, ps: Policies, ids: seq<int>)
    requires Renders(items, ps, ids)
    requires forall i :: 0 <= i < |items| ==> SoundRecord(items[i]) && RecordOf(items[i]).id == ids[i]
    ensures SoundResponse(Response(items))
  {
    hide Rendered;
    assert |T("branch_policies")| == 15 && |T("total_count")| == 11;
    forall i, j | 0 <= i < j < |items| ensures items[i].members[T("id")] != items[j].members[T("id")] {
      assert SoundRecord(items[i]) && SoundRecord(items[j]);
      assert RecordOf(items[i]).id != RecordOf(items[j]).id;
    }
  }

  lemma {:induction false} RenderedLists(items: seq<Value>, ps: Policies, ids: seq<int>, records: seq<Record>)
    requires Renders(items, ps, ids) && |records| == |ids|
    requires forall i :: 0 <= i < |ids| ==> records[i] == Record(ids[i], ps[ids[i]].name, ps[ids[i]].kind)
    ensures Lists(records, ps)
  {
    hide Rendered;
    forall id | id in ps ensures Record(id, ps[id].name, ps[id].kind) in records {
      assert id in ids;
      var i :| 0 <= i < |ids| && ids[i] == id;
      assert records[i] == Record(id, ps[id].name, ps[id].kind);
    }
  }
}
