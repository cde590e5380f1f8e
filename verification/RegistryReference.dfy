/**
 The registry gate once more, as one statement about the observed rows, the saved plan and the preview: what
 scripts/poc_registry_plan.py and scripts/poc_mail_prerequisite.py let pass, in the names the documents use and
 without their passes, sets and reconstructions.
 */
module RegistryReference {
  import opened Options
  import opened Texts
  import opened Json
  import opened RegistryRows
  import opened RegistryPlan
  import opened RegistryHistory
  import opened RegistryProperties
  import opened RegistryRowsReference
  import opened RegistryRecheck

  // ---------------------------------------------------------------- links

  /** The names are of other resources. */
  predicate NamesOthers(names: seq<Urn>, rows: Rows, own: Urn) {
    forall i :: 0 <= i < |names| ==> names[i] in rows && names[i] != own
  }

  predicate Links(site: Site, row: Row, rows: Rows, providerId: Text) {
    && (row.parent == "" || row.parent in rows)
    && NamesOthers(row.dependencies, rows, row.urn)
    && (forall i, j :: 0 <= i < j < |row.dependencies| ==> row.dependencies[i] != row.dependencies[j])
    && (forall k :: k in row.propertyDependencies ==>
      k in row.inputs && NamesOthers(row.propertyDependencies[k], rows, row.urn))
    && (if row.kind == Ecr || row.kind == Ses || row.kind == Dns
        then row.provider == ProvidedBy(site.provider, providerId) else row.provider == NoProvider)
  }

  predicate Linked(site: Site, rows: Rows, providerId: Text) {
    forall u :: u in rows ==> Links(site, rows[u], rows, providerId)
  }

  lemma {:induction false} LinkedExactly(site: Site, rows: Rows, providerId: Text)
    ensures Linked(site, rows, providerId) <==> AllReferencesOk(site, rows, providerId)
  {
    forall u | u in rows
      ensures Links(site, rows[u], rows, providerId) <==> ReferencesOk(site, rows[u], rows.Keys, providerId)
    {
      LinksExactly(site, rows[u], rows, providerId);
    }
  }

  lemma {:induction false} LinksExactly(site: Site, row: Row, rows: Rows, providerId: Text)
    ensures Links(site, row, rows, providerId) <==> ReferencesOk(site, row, rows.Keys, providerId)
  {
    hide NamesOthers, OthersOf;
    OthersExactly(row.dependencies, rows, row.urn);
    forall k | k in row.propertyDependencies
      ensures NamesOthers(row.propertyDependencies[k], rows, row.urn) <==>
              OthersOf(row.propertyDependencies[k], rows.Keys, row.urn)
    {
      OthersExactly(row.propertyDependencies[k], rows, row.urn);
    }
  }

  lemma {:induction false} OthersExactly(names: seq<Urn>, rows: Rows, own: Urn)
    ensures NamesOthers(names, rows, own) <==> OthersOf(names, rows.Keys, own)
  {
    if OthersOf(names, rows.Keys, own) {
      assert forall i :: 0 <= i < |names| ==> names[i] in names;
    }
    if NamesOthers(names, rows, own) {
      forall u | u in names ensures u in rows.Keys && u != own {
        var i :| 0 <= i < |names| && names[i] == u;
      }
    }
  }

  // ---------------------------------------------------------------- mail

  /** The tokens of the list before this one. */
  function Before(v: Value, token: Text): set<Text>
    requires ThreeTokens(v)
  {
    set i | 0 <= i < 3 && Below(v.items[i].s, token) :: v.items[i].s
  }

  /** The token of a list that has this many tokens before it. */
  predicate Ranked(v: Value, token: Text, rank: nat) {
    ThreeTokens(v) && Str(token) in v.items && rank == |Before(v, token)|
  }

  /** The token the record of this index must carry: none while the identity has no id. */
  predicate TokenFor(identity: Row, rank: nat, token: Option<Text>) {
    if identity.id == None || identity.id == Some([]) then token == None && rank < 3
    else
      && token.Some? && T("dkimSigningAttributes") in identity.outputs
      && var dkim := identity.outputs[T("dkimSigningAttributes")];
         dkim.Obj? && T("tokens") in dkim.members && Ranked(dkim.members[T("tokens")], token.value, rank)
  }

  predicate DependsOn(record: Row, name: string, urn: Urn) {
    T(name) in record.propertyDependencies && urn in record.propertyDependencies[T(name)]
  }

  ghost predicate Carries(site: Site, identity: Row, record: Row) {
    && record.urn in site.graph
    && (exists token :: CarriesFor(site, identity, record, token))
    && identity.urn in record.dependencies
    && DependsOn(record, "name", identity.urn) && DependsOn(record, "records", identity.urn)
  }

  predicate CarriesFor(site: Site, identity: Row, record: Row, token: Option<Text>)
    requires record.urn in site.graph
  {
    TokenFor(identity, site.graph[record.urn].index, token) && DnsInputs(site, record.inputs, token)
  }

  /** No identity and no records, or one identity and three records that carry its tokens. */
  ghost predicate MailBound(site: Site, rows: Rows) {
    var identities := set u | u in rows && rows[u].kind == Ses;
    var records := set u | u in rows && rows[u].kind == Dns;
    || (identities == {} && records == {})
    || (|identities| == 1 && |records| == 3
        && forall i, u :: i in identities && u in records ==> Carries(site, rows[i], rows[u]))
  }

  lemma {:induction false} RankOfSorted(v: Value, tokens: seq<Text>, i: nat)
    requires Tokens(v) == Some(tokens) && i < 3
    ensures Ranked(v, tokens[i], i)
    ensures forall t :: Ranked(v, t, i) ==> t == tokens[i]
  {
    hide Tokens, Before, ThreeTokens;
    TokensExactly(v);
    TokensItems(v, tokens);
    forall k | 0 <= k < 3 ensures |Before(v, tokens[k])| == k {
      BeforeSorted(v, tokens, k);
    }
  }

  lemma {:induction false} TokensItems(v: Value, tokens: seq<Text>)
    requires Tokens(v) == Some(tokens)
    ensures ThreeTokens(v) && |tokens| == 3 && Ascending(tokens)
    ensures {v.items[0].s, v.items[1].s, v.items[2].s} == {tokens[0], tokens[1], tokens[2]}
    ensures forall t :: Str(t) in v.items <==> exists k :: 0 <= k < 3 && t == tokens[k]
  {
    TokensExactly(v);
    hide IsToken, TokenText, Ascending;
    var items := {v.items[0].s, v.items[1].s, v.items[2].s};
    assert tokens == Sorted(items);
    assert forall t :: t in tokens <==> t in items;
    assert forall t :: t in tokens <==> t == tokens[0] || t == tokens[1] || t == tokens[2];
    forall t ensures Str(t) in v.items <==> t in items {
      assert v.items == [v.items[0], v.items[1], v.items[2]];
    }
  }

  lemma {:induction false} BeforeSorted(v: Value, tokens: seq<Text>, k: nat)
    requires ThreeTokens(v) && |tokens| == 3 && Ascending(tokens) && k < 3
    requires {v.items[0].s, v.items[1].s, v.items[2].s} == {tokens[0], tokens[1], tokens[2]}
    ensures |Before(v, tokens[k])| == k
  {
    hide Below, ThreeTokens;
    var x, y, z := tokens[0], tokens[1], tokens[2];
    NotBelow(x, y);
    NotBelow(y, z);
    NotBelow(x, z);
    BeforeIs(v, tokens[k], if k == 0 then {} else if k == 1 then {x} else {x, y});
  }

  lemma {:induction false} NotBelow(a: Text, b: Text)
    requires Below(a, b)
    ensures !Below(b, a) && !Below(a, a) && !Below(b, b) && a != b
  {
    hide Below;
    BelowIrreflexive(a);
    BelowIrreflexive(b);
    BelowAsymmetric(a, b);
  }

  lemma {:induction false} BeforeIs(v: Value, token: Text, before: set<Text>)
    requires ThreeTokens(v)
    requires forall t :: t in before <==> t in {v.items[0].s, v.items[1].s, v.items[2].s} && Below(t, token)
    ensures Before(v, token) == before
  {
    hide Below, IsToken;
  }

  /** The tokens of an identity by rank. */
  lemma {:induction false} TokenForExactly(identity: Row, rank: nat, token: Option<Text>)
    ensures TokenFor(identity, rank, token) <==>
      && rank < 3 && IdentityTokens(identity).Some? && |IdentityTokens(identity).value| == 3
      && IdentityTokens(identity).value[rank] == token
  {
    hide Ranked, Tokens;
    if IdOf(identity) != [] && DKIM in identity.outputs && identity.outputs[DKIM].Obj? {
      var v := Get(identity.outputs[DKIM].members, TOKENS, Null);
      NoTokens(token);
      if Tokens(v).Some? && rank < 3 {
        RankOfSorted(v, Tokens(v).value, rank);
      }
      if token.Some? && Ranked(v, token.value, rank) {
        RankedSmall(v, token.value, rank);
      }
    }
  }

  lemma {:induction false} NoTokens(token: Option<Text>)
    ensures Tokens(Null).None?
  {
  }

  lemma {:induction false} RankedSmall(v: Value, token: Text, rank: nat)
    requires Ranked(v, token, rank)
    ensures Tokens(v).Some? && rank < 3
  {
    TokensExactly(v);
    var tokens := Tokens(v).value;
    TokensItems(v, tokens);
    hide Ranked, Tokens, ThreeTokens, Before;
    var k :| 0 <= k < 3 && token == tokens[k];
    BeforeSorted(v, tokens, k);
    RankUnique(v, token, rank, k);
  }

  lemma {:induction false} RankUnique(v: Value, token: Text, i: nat, j: nat)
    requires Ranked(v, token, i) && |Before(v, token)| == j
    ensures i == j
  {
  }

  lemma {:induction false} CarriesExactly(site: Site, identity: Row, record: Row)
    ensures Carries(site, identity, record) <==> RecordBound(site, identity, record)
  {
    hide TokenFor, DnsInputs, IdentityTokens, MailCheckedInputs, RecordInputs, SameMembers;
    if record.urn in site.graph {
      var rank := site.graph[record.urn].index;
      if token :| CarriesFor(site, identity, record, token) {
        TokenForExactly(identity, rank, token);
        DnsInputsExactly(site, record.inputs, token);
      }
      if rank < 3 && IdentityTokens(identity).Some? && |IdentityTokens(identity).value| == 3 {
        var token := IdentityTokens(identity).value[rank];
        TokenForExactly(identity, rank, token);
        DnsInputsExactly(site, record.inputs, token);
        assert DnsInputs(site, record.inputs, token) ==> CarriesFor(site, identity, record, token);
      }
    }
  }

  lemma {:induction false} MailExactly(site: Site, rows: Rows)
    ensures MailBound(site, rows) <==> BindingsOk(site, rows)
  {
    hide Carries, RecordBound;
    forall i, u | i in OfKind(rows, Ses) && u in OfKind(rows, Dns)
      ensures Carries(site, rows[i], rows[u]) <==> RecordBound(site, rows[i], rows[u])
    {
      CarriesExactly(site, rows[i], rows[u]);
    }
    assert OfKind(rows, Ses) == set u | u in rows && rows[u].kind == Ses;
    assert OfKind(rows, Dns) == set u | u in rows && rows[u].kind == Dns;
  }

  // ---------------------------------------------------------------- observed rows

  /** The rows are of the checkpoint that predates the hardened provider settings. */
  predicate FromLegacy(site: Site, rows: seq<Row>) {
    exists i :: 0 <= i < |rows| && IsLegacyRow(site, rows[i])
  }

  predicate IsLegacyRow(site: Site, row: Row) {
    row.kind == Provider("aws") && LegacySettings(site, row.inputs)
  }

  predicate Lists(rows: seq<Row>, u: Urn) {
    exists i :: 0 <= i < |rows| && rows[i].urn == u
  }

  ghost predicate EachSound(site: Site, rows: seq<Row>, legacy: bool) {
    forall i :: 0 <= i < |rows| ==> SoundRow(site, rows[i], false, legacy && rows[i].kind == Provider("aws"), false)
  }

  predicate AllDifferent(rows: seq<Row>) {
    forall i, j :: 0 <= i < j < |rows| ==> rows[i].urn != rows[j].urn
  }

  predicate OnlyOf(rows: seq<Row>, urns: set<Urn>) {
    forall i :: 0 <= i < |rows| ==> rows[i].urn in urns
  }

  predicate AllOf(rows: seq<Row>, urns: set<Urn>) {
    forall u :: u in urns ==> Lists(rows, u)
  }

  /** Sound rows of different resources, of the bootstrap or of the whole graph; the legacy list is the pinned one. */
  ghost predicate SoundRows(site: Site, rows: seq<Row>) {
    && |rows| <= |site.graph|
    && EachSound(site, rows, FromLegacy(site, rows)) && AllDifferent(rows)
    && (FromLegacy(site, rows) ==>
      rows == site.legacyRows && OnlyOf(rows, site.baseline) && AllOf(rows, site.baseline))
    && (OnlyOf(rows, site.baseline) || AllOf(rows, site.graph.Keys))
  }

  /** The provider's row has an id, if it is there; with it the rows are linked and the mail records bound. */
  ghost predicate SoundTogether(site: Site, m: Rows) {
    && (site.provider in m ==>
      m[site.provider].id.Some? && m[site.provider].id.value != []
      && m[site.provider].id.value != T("04da6b54-80e4-46f7-96ec-b56ff0331ba9"))
    && Linked(site, m, if site.provider in m then m[site.provider].id.value
                       else T("04da6b54-80e4-46f7-96ec-b56ff0331ba9"))
    && MailBound(site, m)
  }

  lemma {:induction false} LegacyRowExactly(site: Site, row: Row)
    ensures IsLegacyRow(site, row) <==> LegacyProvider(site, row)
  {
    hide LegacySettings, SameMembers;
    LegacyExactly(site, row.inputs);
  }

  lemma {:induction false} FromLegacyExactly(site: Site, rows: seq<Row>)
    ensures FromLegacy(site, rows) <==> IsLegacy(site, rows)
  {
    hide IsLegacyRow, LegacyProvider;
    forall i | 0 <= i < |rows| ensures IsLegacyRow(site, rows[i]) <==> LegacyProvider(site, rows[i]) {
      LegacyRowExactly(site, rows[i]);
    }
  }

  lemma {:induction false} UrnsListed(rows: seq<Row>, urns: set<Urn>)
    ensures OnlyOf(rows, urns) <==> Urns(rows) <= urns
    ensures AllOf(rows, urns) <==> urns <= Urns(rows)
  {
    if urns <= Urns(rows) {
      forall u | u in urns ensures Lists(rows, u) {
        assert u in Urns(rows);
      }
    }
    if AllOf(rows, urns) {
      forall u | u in urns ensures u in Urns(rows) {
        assert Lists(rows, u);
      }
    }
    if Urns(rows) <= urns {
      forall i | 0 <= i < |rows| ensures rows[i].urn in urns {
        assert rows[i].urn in Urns(rows);
      }
    }
  }

  lemma {:induction false} ChecksExactly(site: Site, rows: seq<Row>, legacy: bool)
    ensures AllRows(rows, RowCheck(site, legacy)) <==> EachSound(site, rows, legacy)
  {
    hide StateOk, SoundRow;
    forall i | 0 <= i < |rows|
      ensures SoundRow(site, rows[i], false, legacy && rows[i].kind == Provider("aws"), false) <==>
              RowCheck(site, legacy)(rows[i])
    {
      RowExactly(site, rows[i], false, legacy && rows[i].kind == Provider("aws"), false);
    }
  }

  lemma {:induction false} SoundUrns(site: Site, rows: seq<Row>, legacy: bool)
    requires AllRows(rows, RowCheck(site, legacy))
    ensures Urns(rows) <= site.graph.Keys
  {
    hide InputsOutputsOk;
    forall i | 0 <= i < |rows| ensures rows[i].urn in site.graph {
      assert RowCheck(site, legacy)(rows[i]);
    }
  }

  lemma {:induction false} TogetherExactly(site: Site, m: Rows)
    ensures SoundTogether(site, m) <==>
      ProviderIdKnown(site, m) && AllReferencesOk(site, m, ProviderId(site, m)) && BindingsOk(site, m)
  {
    hide Linked, AllReferencesOk, MailBound, BindingsOk;
    LinkedExactly(site, m, ProviderId(site, m));
    MailExactly(site, m);
  }

  lemma {:induction false} ObservedExactly(site: Site, rows: seq<Row>)
    ensures PriorOk(site, rows) <==> SoundRows(site, rows) && SoundTogether(site, Inventory(rows))
  {
    hide SoundTogether, AllReferencesOk, BindingsOk, ProviderIdKnown, ProviderId, AllRows, IsLegacy, FromLegacy;
    hide EachSound, OnlyOf, AllOf, Urns, Inventory;
    FromLegacyExactly(site, rows);
    UrnsListed(rows, site.baseline);
    UrnsListed(rows, site.graph.Keys);
    ChecksExactly(site, rows, IsLegacy(site, rows));
    TogetherExactly(site, Inventory(rows));
    if AllRows(rows, RowCheck(site, IsLegacy(site, rows))) {
      SoundUrns(site, rows, IsLegacy(site, rows));
    }
  }

  // ---------------------------------------------------------------- goals

  function Part(part: Option<Members>): Members {
    if part.Some? then part.value else map[]
  }

  function Names(part: Option<seq<Text>>): seq<Text> {
    if part.Some? then part.value else []
  }

  /** `now` is `was` with what the diff adds and its new values, and without what it deletes. */
  predicate Patched(d: Diff, was: Members, now: Members) {
    var adds, updates, deletes := Part(d.adds), Part(d.updates), Names(d.deletes);
    && (forall i, j :: 0 <= i < j < |deletes| ==> deletes[i] != deletes[j])
    && (forall i :: 0 <= i < |deletes| ==> deletes[i] in was && deletes[i] !in updates)
    && (forall k :: k in adds ==> k !in was) && (forall k :: k in updates ==> k in was)
    && now == map k | k in was.Keys + adds.Keys && k !in deletes ::
                if k in adds then adds[k] else if k in updates then updates[k] else was[k]
  }

  lemma {:induction false} PatchedExactly(d: Diff, was: Members, now: Members)
    ensures Patched(d, was, now) <==> ApplyDiff(d, was) == Some(now)
  {
    var adds, updates, deletes := Part(d.adds), Part(d.updates), Names(d.deletes);
    assert forall k :: k in deletes <==> k in Deleted(d);
    if Patched(d, was, now) {
      assert DiffFits(d, was);
      assert now == (was - Deleted(d)) + adds + updates;
    }
    if DiffFits(d, was) {
      assert forall i :: 0 <= i < |deletes| ==> deletes[i] in Deleted(d);
      assert (was - Deleted(d)) + adds + updates == map k | k in was.Keys + adds.Keys && k !in deletes ::
        if k in adds then adds[k] else if k in updates then updates[k] else was[k];
    }
  }

  /** The row is where the goal says, under the name the graph has for it, with the goal's dependencies. */
  predicate FromGoal(site: Site, u: Urn, goal: Goal, row: Row) {
    && u in site.graph && goal.name == site.graph[u].name && !goal.overridden
    && row.urn == u && row.kind == goal.kind && row.custom == goal.custom && row.parent == goal.parent
    && row.provider == goal.provider && row.protect == goal.protect && !row.flagged
    && row.dependencies == goal.dependencies && row.propertyDependencies == goal.propertyDependencies
    && row.secretOutputs == goal.secretOutputs
  }

  /** The same resource in the same place. */
  predicate SameOwner(a: Row, b: Row) {
    && a.urn == b.urn && a.kind == b.kind && a.custom == b.custom && a.parent == b.parent
    && a.provider == b.provider && a.protect == b.protect
    && (a.id == b.id || (NoId(a) && NoId(b)))
  }

  predicate NoId(row: Row) {
    row.id == None || row.id == Some([])
  }

  /** The one resource whose inputs may change: the provider of the legacy checkpoint. */
  predicate ToHarden(site: Site, was: Row) {
    was.urn == site.provider && LegacySettings(site, was.inputs)
  }

  /** A resource that is there keeps its inputs, but for its provider's own defaults, and its outputs. */
  predicate Retains(plan: ResourcePlan, was: Row, row: Row) {
    && plan.steps == [Same] && Nothing(plan.goal.outputDiff) && row.outputs == was.outputs
    && ((Nothing(plan.goal.inputDiff) && row.inputs == was.inputs)
        || (RecheckGoal(plan.goal) && row.inputs == RecheckedInputs(was)))
  }

  /** What the plan asks for is `row`. */
  ghost predicate Asks(site: Site, u: Urn, plan: ResourcePlan, prior: Option<Row>, row: Row) {
    && plan.seed == Some(32) && FromGoal(site, u, plan.goal, row)
    && match prior
       case None =>
         && plan.steps == [Create]
         && row.id == (if u == site.provider then Some(T("04da6b54-80e4-46f7-96ec-b56ff0331ba9")) else None)
         && Patched(plan.goal.inputDiff, map[], row.inputs) && Patched(plan.goal.outputDiff, map[], row.outputs)
         && SoundRow(site, row, true, false, false)
       case Some(was) =>
         && SameOwner(row, was) && row.id.Some?
         && if ToHarden(site, was) then
              && plan.steps == [Update] && SoundRow(site, row, false, false, false)
              && Patched(plan.goal.inputDiff, was.inputs, row.inputs)
              && Patched(plan.goal.outputDiff, was.outputs, row.outputs)
            else Retains(plan, was, row)
  }

  lemma {:induction false} OwnerExactly(a: Row, b: Row)
    ensures SameOwner(a, b) <==> Ownership(a) == Ownership(b)
  {
  }

  lemma {:induction false} CreatedExactly(site: Site, u: Urn, plan: ResourcePlan, row: Row)
    ensures Desired(site, u, plan, None) == Some(row) <==> Asks(site, u, plan, None, row)
  {
    hide StateOk, SoundRow, ApplyDiff, Patched, RecheckDiff;
    PatchedExactly(plan.goal.inputDiff, map[], row.inputs);
    PatchedExactly(plan.goal.outputDiff, map[], row.outputs);
    RowExactly(site, row, true, false, false);
  }

  lemma {:induction false} HardenedExactly(site: Site, u: Urn, plan: ResourcePlan, was: Row, row: Row)
    requires was.urn == u && was.kind == AWS_PROVIDER && ToHarden(site, was)
    ensures Desired(site, u, plan, Some(was)) == Some(row) <==> Asks(site, u, plan, Some(was), row)
  {
    hide StateOk, SoundRow, ApplyDiff, Patched, RecheckDiff, LegacySettings, SameMembers, LegacyInputs, SemanticInputs;
    LegacyExactly(site, was.inputs);
    PatchedExactly(plan.goal.inputDiff, was.inputs, row.inputs);
    PatchedExactly(plan.goal.outputDiff, was.outputs, row.outputs);
    RowExactly(site, row, false, false, false);
    OwnerExactly(row, was);
  }

  /** What a plan for a resource that is there must look like; the row it describes is then fixed. */
  predicate RetainingPlan(site: Site, plan: ResourcePlan, was: Row) {
    && plan.steps == [Same] && plan.seed == Some(32) && Describes(site, plan.goal, was)
    && Nothing(plan.goal.outputDiff) && (Nothing(plan.goal.inputDiff) || RecheckGoal(plan.goal))
  }

  lemma {:induction false} RetainingAsks(site: Site, u: Urn, plan: ResourcePlan, was: Row, row: Row)
    requires was.urn == u && !was.flagged && !ToHarden(site, was)
    requires RetainingPlan(site, plan, was) && row == Described(plan.goal, was)
    ensures Asks(site, u, plan, Some(was), row)
  {
    hide RecheckGoal, Nothing, RecheckedInputs, LegacySettings;
    NotBoth(plan.goal);
  }

  lemma {:induction false} AskedRetains(site: Site, u: Urn, plan: ResourcePlan, was: Row, row: Row)
    requires was.urn == u && !was.flagged && !ToHarden(site, was) && Asks(site, u, plan, Some(was), row)
    ensures RetainingPlan(site, plan, was) && row == Described(plan.goal, was)
  {
    hide RecheckGoal, Nothing, RecheckedInputs, LegacySettings;
    NotBoth(plan.goal);
  }

  lemma {:induction false} RetainedExactly(site: Site, u: Urn, plan: ResourcePlan, was: Row, row: Row)
    requires was.urn == u && !ToHarden(site, was) && StateOk(site, was, false, false, false)
    ensures Desired(site, u, plan, Some(was)) == Some(row) <==> Asks(site, u, plan, Some(was), row)
  {
    hide StateOk, Desired, RecheckGoal, Nothing, Described, LegacySettings, SameMembers, LegacyInputs, Asks, Describes;
    LegacyExactly(site, was.inputs);
    RetainedGoalExactly(site, was, plan);
    PlacedIn(site, was);
    if RetainingPlan(site, plan, was) {
      RetainingAsks(site, u, plan, was, Described(plan.goal, was));
    }
    if Asks(site, u, plan, Some(was), row) {
      AskedRetains(site, u, plan, was, row);
    }
  }

  lemma {:induction false} NotBoth(goal: Goal)
    ensures !(Nothing(goal.inputDiff) && RecheckGoal(goal))
  {
    var none: Members, one: Members := map[], map[T("__defaults") := Arr([])];
    assert T("__defaults") in one.Keys && T("__defaults") !in none.Keys;
    SameMembersPointwise(none, one);
    hide SameMembers;
    assert WrittenDiff(goal.kind).adds == Some(one);
  }

  // ---------------------------------------------------------------- displayed rows

  /** A private key of the identity is displayed hidden. */
  function Hidden(v: Value): Value {
    if v.Obj? then Str(T("[secret]")) else v
  }

  predicate SameDkim(a: Members, b: Members, refreshed: bool) {
    a.Keys == b.Keys && forall k :: k in a ==> SameDkimField(k, a[k], b[k], refreshed)
  }

  predicate SameDkimField(k: Text, a: Value, b: Value, refreshed: bool) {
    if k == T("domainSigningPrivateKey") then PyEq(Hidden(a), Hidden(b))
    else (refreshed && k == T("status")) || PyEq(a, b)
  }

  predicate SameOutput(k: Text, a: Value, b: Value, refreshed: bool) {
    if k == T("dkimSigningAttributes") && a.Obj? && b.Obj? then SameDkim(a.members, b.members, refreshed)
    else (refreshed && (k == T("verificationStatus") || k == T("verifiedForSendingStatus"))) || PyEq(a, b)
  }

  /** The same outputs, an identity's up to its hidden key and, once refreshed, to the progress of its verification. */
  predicate SameOutputs(kind: Kind, a: Members, b: Members, refreshed: bool) {
    if kind != Ses then SameMembers(a, b)
    else a.Keys == b.Keys && forall k :: k in a ==> SameOutput(k, a[k], b[k], refreshed)
  }

  /** Of inputs the source fixes nothing is left to compare; a record's may differ in the provider's defaults. */
  predicate SameInputs(kind: Kind, a: Members, b: Members, refreshed: bool) {
    if refreshed && (kind == Ecr || kind == Ses) then true
    else if refreshed && kind == Dns then SameMembers(a - {T("__defaults")}, b - {T("__defaults")})
    else SameMembers(a, b)
  }

  /** The displayed row is this one. */
  ghost predicate ShownAs(site: Site, shown: Row, was: Row, refreshed: bool) {
    && SoundRow(site, shown, false, false, true) && SameOwner(shown, was)
    && SameInputs(was.kind, shown.inputs, was.inputs, refreshed)
    && SameOutputs(was.kind, shown.outputs, was.outputs, refreshed)
  }

  function FieldShown(k: Text, v: Value, refreshed: bool): Value {
    if k == PRIVATE_KEY then Hidden(v) else if refreshed && k == STATUS then Null else v
  }

  lemma {:induction false} DkimShownAt(m: Members, refreshed: bool)
    ensures DkimShown(m, refreshed).Keys == m.Keys
    ensures forall k :: k in m ==> DkimShown(m, refreshed)[k] == FieldShown(k, m[k], refreshed)
  {
    DkimNames();
  }

  lemma {:induction false} RedactedDkim(a: Members, b: Members, refreshed: bool)
    ensures SameDkim(a, b, refreshed) <==> SameMembers(DkimShown(a, refreshed), DkimShown(b, refreshed))
  {
    DkimShownAt(a, refreshed);
    DkimShownAt(b, refreshed);
    SameMembersPointwise(DkimShown(a, refreshed), DkimShown(b, refreshed));
    hide PyEq, DkimShown, SameMembers, FieldShown, SameDkimField;
    forall k | k in a && k in b
      ensures SameDkimField(k, a[k], b[k], refreshed) <==>
              PyEq(FieldShown(k, a[k], refreshed), FieldShown(k, b[k], refreshed))
    {
      FieldExactly(k, a[k], b[k], refreshed);
    }
  }

  lemma {:induction false} FieldExactly(k: Text, a: Value, b: Value, refreshed: bool)
    ensures SameDkimField(k, a, b, refreshed) <==> PyEq(FieldShown(k, a, refreshed), FieldShown(k, b, refreshed))
  {
    hide PyEq;
    DkimNames();
    NullEqual();
  }

  lemma {:induction false} NullEqual()
    ensures PyEq(Null, Null)
  {
  }

  /** How the gate normalises the identity's attributes. */
  function DkimShown(m: Members, refreshed: bool): Members {
    var hidden := if PRIVATE_KEY in m && m[PRIVATE_KEY].Obj? then m[PRIVATE_KEY := SECRET] else m;
    if refreshed then Blanked(hidden, STATUS) else hidden
  }

  /** And one output. */
  function OutputShown(k: Text, v: Value, refreshed: bool): Value {
    if k == DKIM && v.Obj? then Obj(DkimShown(v.members, refreshed))
    else if refreshed && (k == VERIFICATION || k == VERIFIED) then Null
    else v
  }

  lemma {:induction false} OutputsShown(outputs: Members, refreshed: bool)
    ensures ShownOutputs(Ses, outputs, refreshed).Keys == outputs.Keys
    ensures forall k :: k in outputs ==>
      ShownOutputs(Ses, outputs, refreshed)[k] == OutputShown(k, outputs[k], refreshed)
  {
    SesOutputNames();
    assert |VERIFICATION| == 18 && |VERIFIED| == 24 && |DKIM| == 21;
  }

  lemma {:induction false} OutputExactly(k: Text, a: Value, b: Value, refreshed: bool)
    ensures SameOutput(k, a, b, refreshed) <==> PyEq(OutputShown(k, a, refreshed), OutputShown(k, b, refreshed))
  {
    hide DkimShown, SameDkim;
    SesOutputNames();
    NullEqual();
    if k == DKIM && a.Obj? && b.Obj? {
      RedactedDkim(a.members, b.members, refreshed);
    } else if k == DKIM {
      KindsAlike(a, b, refreshed);
    }
  }

  lemma {:induction false} KindsAlike(a: Value, b: Value, refreshed: bool)
    requires !(a.Obj? && b.Obj?)
    ensures PyEq(OutputShown(DKIM, a, refreshed), OutputShown(DKIM, b, refreshed)) <==> PyEq(a, b)
  {
  }

  lemma {:induction false} OutputsExactly(kind: Kind, a: Members, b: Members, refreshed: bool)
    ensures SameOutputs(kind, a, b, refreshed) <==>
      SameMembers(ShownOutputs(kind, a, refreshed), ShownOutputs(kind, b, refreshed))
  {
    if kind == Ses {
      hide SameOutput, OutputShown, PyEq, ShownOutputs;
      OutputsShown(a, refreshed);
      OutputsShown(b, refreshed);
      SameMembersPointwise(ShownOutputs(kind, a, refreshed), ShownOutputs(kind, b, refreshed));
      forall k | k in a && k in b
        ensures SameOutput(k, a[k], b[k], refreshed) <==>
                PyEq(OutputShown(k, a[k], refreshed), OutputShown(k, b[k], refreshed))
      {
        OutputExactly(k, a[k], b[k], refreshed);
      }
    }
  }

  lemma {:induction false} EcrAlike(site: Site, a: Row, b: Row)
    requires a.kind == Ecr == b.kind && a.urn == b.urn
    requires StateOk(site, a, false, false, true) && StateOk(site, b, false, false, false)
    ensures SameResult(SemanticInputs(site, Ecr, a.inputs), SemanticInputs(site, Ecr, b.inputs))
    ensures SemanticInputs(site, Ecr, b.inputs).Some?
  {
    hide EcrCheckedInputs, RepositoryInputs, Computed;
  }

  lemma {:induction false} SesAlike(site: Site, a: Row, b: Row)
    requires a.kind == Ses == b.kind
    requires StateOk(site, a, false, false, true) && StateOk(site, b, false, false, false)
    ensures SameResult(SemanticInputs(site, Ses, a.inputs), SemanticInputs(site, Ses, b.inputs))
    ensures SemanticInputs(site, Ses, b.inputs).Some?
  {
    hide MailCheckedInputs, IdentityInputs, IdentityOutput;
  }

  lemma {:induction false} DnsAlike(site: Site, a: Row, b: Row)
    requires a.kind == Dns == b.kind
    requires StateOk(site, a, false, false, true) && StateOk(site, b, false, false, false)
    ensures SameResult(SemanticInputs(site, Dns, a.inputs), SemanticInputs(site, Dns, b.inputs)) <==>
      SameMembers(a.inputs - {T("__defaults")}, b.inputs - {T("__defaults")})
    ensures SemanticInputs(site, Dns, b.inputs).Some?
  {
    hide PyEq, RecordOk;
    PopIs(a.inputs);
    PopIs(b.inputs);
  }

  lemma {:induction false} PopIs(m: Members)
    requires Pop(m, DEFAULTS, EMPTY).Some?
    ensures Pop(m, DEFAULTS, EMPTY) == Some(m - {T("__defaults")})
  {
    if DEFAULTS !in m {
      assert m - {DEFAULTS} == m;
    }
  }

  lemma {:induction false} InputsExactly(site: Site, a: Row, b: Row, refreshed: bool)
    requires StateOk(site, a, false, false, true) && StateOk(site, b, false, false, false)
    requires a.kind == b.kind && a.urn == b.urn
    ensures SameInputs(b.kind, a.inputs, b.inputs, refreshed) <==>
      if refreshed then
        && SameResult(SemanticInputs(site, b.kind, a.inputs), SemanticInputs(site, b.kind, b.inputs))
        && SemanticInputs(site, b.kind, b.inputs).Some?
      else SameMembers(a.inputs, b.inputs)
  {
    hide StateOk, SameMembers, MailCheckedInputs, EcrCheckedInputs;
    match b.kind
    case Ecr => EcrAlike(site, a, b);
    case Ses => SesAlike(site, a, b);
    case Dns => DnsAlike(site, a, b);
    case _ =>
  }

  lemma {:induction false} ShownExactly(site: Site, shown: Row, was: Row, refreshed: bool)
    requires StateOk(site, was, false, false, false)
    ensures ShownAs(site, shown, was, refreshed) <==> ShowsOld(site, shown, was, refreshed)
  {
    hide StateOk, SoundRow, SameInputs, SameOutputs, SemanticInputs, ShownOutputs, SameMembers;
    RowExactly(site, shown, false, false, true);
    OwnerExactly(shown, was);
    OutputsExactly(was.kind, shown.outputs, was.outputs, refreshed);
    if StateOk(site, shown, false, false, true) && SameOwner(shown, was) {
      InputsExactly(site, shown, was, refreshed);
    }
  }

  // ---------------------------------------------------------------- steps

  /** A refresh shows an observed row twice, unchanged. */
  ghost predicate ShowsRefresh(site: Site, step: Step, prior: Rows) {
    && step.urn in prior && step.urn != site.provider && !step.explained
    && step.provider == prior[step.urn].provider
    && step.oldState.Some? && ShownAs(site, step.oldState.value, prior[step.urn], false)
    && ShownAs(site, step.newState, prior[step.urn], false)
  }

  /** After a refresh the engine leaves out the id and outputs of a row that does not change. */
  function Filled(shown: Row, was: Row, refreshed: bool): Row {
    shown.(id := if refreshed && shown.id == None && was.custom then was.id else shown.id,
           outputs := if refreshed && shown.outputs == map[] then was.outputs else shown.outputs)
  }

  /** The id of a row to be created may be shown as unknown. */
  function Nameless(row: Row): Row {
    if row.id == Some(T("04da6b54-80e4-46f7-96ec-b56ff0331ba9")) then row.(id := None) else row
  }

  /** A step shows the row the plan asks for, as the same as the observed one or as a creation. */
  ghost predicate Shows(site: Site, step: Step, prior: Rows, desired: Rows, refreshed: bool) {
    && step.urn in site.graph && step.urn != site.provider && step.urn in desired && !step.explained
    && var want := desired[step.urn];
    && step.provider == want.provider && SameMembers(step.newState.inputs, want.inputs)
    && if step.urn !in prior then
         && step.op == Create && step.oldState == None
         && SoundRow(site, step.newState, true, false, true) && SameOwner(Nameless(step.newState), want)
       else
         var was, row := prior[step.urn], Filled(step.newState, prior[step.urn], refreshed);
         && step.op == Same && step.oldState.Some? && ShownAs(site, step.oldState.value, was, refreshed)
         && SoundRow(site, row, false, false, true) && SameOwner(row, want)
         && (refreshed && step.newState.outputs != map[] ==> ShownAs(site, row, was, true))
  }

  lemma {:induction false} RefreshExactly(site: Site, step: Step, prior: Rows)
    requires step.urn in prior && step.urn != site.provider ==> StateOk(site, prior[step.urn], false, false, false)
    ensures ShowsRefresh(site, step, prior) <==> RefreshStepOk(site, step, prior)
  {
    hide ShownAs, ShowsOld, StateOk;
    if step.urn in prior && step.urn != site.provider {
      ShownExactly(site, step.newState, prior[step.urn], false);
      if step.oldState.Some? {
        ShownExactly(site, step.oldState.value, prior[step.urn], false);
      }
    }
  }

  lemma {:induction false} FilledExactly(site: Site, shown: Row, was: Row, refreshed: bool)
    requires StateOk(site, was, false, false, false)
    ensures var row := Filled(shown, was, refreshed);
      PreviewNew(site, shown, Some(was), refreshed) ==
      if StateOk(site, row, false, false, true)
        && (refreshed && shown.outputs != map[] ==> ShownAs(site, row, was, true)) then Some(row) else None
  {
    hide ShownAs, ShowsOld, StateOk;
    ShownExactly(site, Filled(shown, was, refreshed), was, true);
    assert shown.(id := shown.id, outputs := shown.outputs) == shown;
  }

  lemma {:induction false} CreationExactly(site: Site, step: Step, prior: Rows, desired: Rows, refreshed: bool)
    requires step.urn !in prior
    ensures Shows(site, step, prior, desired, refreshed) <==> PreviewStepOk(site, step, prior, desired, refreshed)
  {
    hide StateOk, SoundRow, SameMembers;
    if step.urn in desired {
      RowExactly(site, step.newState, true, false, true);
      NamelessOwner(step.newState, desired[step.urn]);
    }
  }

  /** An unknown id counts as none. */
  lemma {:induction false} NamelessOwner(row: Row, want: Row)
    ensures SameOwner(Nameless(row), want) <==>
      Ownership(if IdOf(row) == UNKNOWN then row.(id := Some([])) else row) == Ownership(want)
  {
    assert |UNKNOWN| == 36;
    OwnerExactly(Nameless(row), want);
    hide SameOwner;
    assert Ownership(Nameless(row)) == Ownership(if IdOf(row) == UNKNOWN then row.(id := Some([])) else row);
  }

  lemma {:induction false} SameExactly(site: Site, step: Step, prior: Rows, desired: Rows, refreshed: bool)
    requires step.urn in prior && StateOk(site, prior[step.urn], false, false, false)
    ensures Shows(site, step, prior, desired, refreshed) <==> PreviewStepOk(site, step, prior, desired, refreshed)
  {
    hide StateOk, SoundRow, SameMembers, ShownAs, ShowsOld, PreviewNew;
    if step.urn in desired {
      var was, want := prior[step.urn], desired[step.urn];
      var row := Filled(step.newState, was, refreshed);
      FilledExactly(site, step.newState, was, refreshed);
      RowExactly(site, row, false, false, true);
      OwnerExactly(row, want);
      if step.oldState.Some? {
        ShownExactly(site, step.oldState.value, was, refreshed);
      }
    }
  }

  // ---------------------------------------------------------------- previews

  predicate ShownBetween(steps: seq<Step>, m: nat, n: nat, u: Urn) {
    exists i :: m <= i < n <= |steps| && steps[i].urn == u
  }

  predicate NoneTwice(steps: seq<Step>, m: nat, n: nat) {
    forall i, j :: m <= i < j < n <= |steps| ==> steps[i].urn != steps[j].urn
  }

  /** With a refresh every resource but the provider is shown, observed ones twice; without, those to be created. */
  predicate CoversAt(site: Site, steps: seq<Step>, prior: Rows, requireRefresh: bool, n: nat) {
    if n > 0 || requireRefresh then
      && (forall u :: u in prior && u != site.provider ==> ShownBetween(steps, 0, n, u))
      && (forall u :: u in site.graph && u != site.provider ==> ShownBetween(steps, n, |steps|, u))
    else forall u :: u in site.graph && u !in prior && u != site.provider ==> ShownBetween(steps, n, |steps|, u)
  }

  /** The first `n` steps are refreshes, the others are not; both show different resources. */
  ghost predicate PreviewAt(site: Site, steps: seq<Step>, prior: Rows, desired: Rows, requireRefresh: bool, n: nat) {
    && n <= |steps|
    && (forall i :: 0 <= i < n ==> steps[i].op == Refresh && ShowsRefresh(site, steps[i], prior))
    && (forall i :: n <= i < |steps| ==> steps[i].op != Refresh && Shows(site, steps[i], prior, desired, n > 0))
    && NoneTwice(steps, 0, n) && NoneTwice(steps, n, |steps|)
    && CoversAt(site, steps, prior, requireRefresh, n)
  }

  ghost predicate ShownPreview(site: Site, steps: seq<Step>, prior: Rows, desired: Rows, requireRefresh: bool) {
    exists n :: PreviewAt(site, steps, prior, desired, requireRefresh, n)
  }

  ghost predicate PriorSound(site: Site, prior: Rows) {
    forall u :: u in prior && u != site.provider ==> u in site.graph && StateOk(site, prior[u], false, false, false)
  }

  lemma {:induction false} StepExactly(site: Site, step: Step, prior: Rows, desired: Rows, refreshed: bool)
    requires PriorSound(site, prior)
    ensures Shows(site, step, prior, desired, refreshed) <==> PreviewStepOk(site, step, prior, desired, refreshed)
    ensures ShowsRefresh(site, step, prior) <==> RefreshStepOk(site, step, prior)
  {
    hide StateOk, ShowsRefresh, RefreshStepOk;
    RefreshExactly(site, step, prior);
    if step.urn != site.provider {
      hide Shows, PreviewStepOk;
      if step.urn in prior {
        SameExactly(site, step, prior, desired, refreshed);
      } else {
        CreationExactly(site, step, prior, desired, refreshed);
      }
    }
  }

  lemma {:induction false} RefreshesAre(steps: seq<Step>, n: nat)
    requires n <= |steps| && (forall i :: 0 <= i < n ==> steps[i].op == Refresh)
    requires forall i :: n <= i < |steps| ==> steps[i].op != Refresh
    ensures Refreshes(steps) == n
  {
    var k := Refreshes(steps);
    assert k < |steps| ==> steps[k].op != Refresh;
    assert n < |steps| ==> steps[n].op != Refresh;
  }

  lemma {:induction false} BetweenExactly(steps: seq<Step>, m: nat, n: nat)
    requires m <= n <= |steps|
    ensures forall u :: u in StepUrns(steps[m..n]) <==> ShownBetween(steps, m, n, u)
    ensures DistinctSteps(steps[m..n]) <==> NoneTwice(steps, m, n)
  {
    var part := steps[m..n];
    assert forall i :: m <= i < n ==> part[i - m] == steps[i];
    forall u ensures u in StepUrns(part) <==> ShownBetween(steps, m, n, u) {
      if u in StepUrns(part) {
        var i :| 0 <= i < |part| && part[i].urn == u;
        assert steps[m + i].urn == u;
      }
      if ShownBetween(steps, m, n, u) {
        var i :| m <= i < n && steps[i].urn == u;
        assert part[i - m].urn == u;
      }
    }
    if DistinctSteps(part) {
      forall i, j | m <= i < j < n ensures steps[i].urn != steps[j].urn {
        assert part[i - m].urn != part[j - m].urn;
      }
    }
  }

  lemma {:induction false} CoverExactly(site: Site, steps: seq<Step>, prior: Rows, requireRefresh: bool, n: nat)
    requires n <= |steps| && prior.Keys <= site.graph.Keys + {site.provider}
    requires forall i :: 0 <= i < n ==> steps[i].urn in prior && steps[i].urn != site.provider
    requires forall i :: n <= i < |steps| ==> steps[i].urn in site.graph && steps[i].urn != site.provider
    ensures CoversAt(site, steps, prior, requireRefresh, n) <==>
      Covers(StepUrns(steps[..n]), StepUrns(steps[n..]), prior.Keys - {site.provider},
             site.graph.Keys - {site.provider}, requireRefresh)
  {
    assert steps[0..n] == steps[..n] && steps[n..|steps|] == steps[n..];
    BetweenExactly(steps, 0, n);
    BetweenExactly(steps, n, |steps|);
    UrnsEmpty(steps[..n]);
    var refreshed, seen := StepUrns(steps[..n]), StepUrns(steps[n..]);
    assert refreshed <= prior.Keys - {site.provider} by {
      forall u | u in refreshed ensures u in prior && u != site.provider {
        assert ShownBetween(steps, 0, n, u);
      }
    }
    assert seen <= site.graph.Keys - {site.provider} by {
      forall u | u in seen ensures u in site.graph && u != site.provider {
        assert ShownBetween(steps, n, |steps|, u);
      }
    }
    hide StepUrns, ShownBetween;
  }

  lemma {:induction false} OrderExactly(site: Site, steps: seq<Step>, prior: Rows, desired: Rows)
    requires PriorSound(site, prior)
    ensures var n := Refreshes(steps);
      && NoneTwice(steps, 0, n) && NoneTwice(steps, n, |steps|)
      && (forall i :: 0 <= i < n ==> steps[i].op == Refresh && ShowsRefresh(site, steps[i], prior))
      && (forall i :: n <= i < |steps| ==> steps[i].op != Refresh && Shows(site, steps[i], prior, desired, n > 0))
      <==> Orderly(steps, RefreshCheck(site, prior), StepCheck(site, prior, desired))
  {
    hide Shows, ShowsRefresh, PreviewStepOk, RefreshStepOk, NoneTwice, DistinctSteps, PriorSound;
    var n := Refreshes(steps);
    assert steps[0..n] == steps[..n] && steps[n..|steps|] == steps[n..];
    BetweenExactly(steps, 0, n);
    BetweenExactly(steps, n, |steps|);
    forall i | 0 <= i < |steps|
      ensures ShowsRefresh(site, steps[i], prior) <==> RefreshCheck(site, prior)(steps[i])
      ensures Shows(site, steps[i], prior, desired, n > 0) <==> StepCheck(site, prior, desired)(steps[i], n > 0)
    {
      StepExactly(site, steps[i], prior, desired, n > 0);
    }
  }

  lemma {:induction false} AtExactly(site: Site, steps: seq<Step>, prior: Rows, desired: Rows, requireRefresh: bool)
    requires PriorSound(site, prior) && prior.Keys <= site.graph.Keys + {site.provider}
    ensures PreviewAt(site, steps, prior, desired, requireRefresh, Refreshes(steps)) <==>
      PreviewOk(site, steps, prior, desired, requireRefresh)
  {
    hide Orderly, Covers, CoversAt, NoneTwice, PriorSound, Refreshes, ShowsRefresh, Shows;
    var n := Refreshes(steps);
    OrderExactly(site, steps, prior, desired);
    if Orderly(steps, RefreshCheck(site, prior), StepCheck(site, prior, desired)) {
      StepsPlaced(site, steps, prior, desired);
      CoverExactly(site, steps, prior, requireRefresh, n);
    }
  }

  lemma {:induction false} StepsPlaced(site: Site, steps: seq<Step>, prior: Rows, desired: Rows)
    requires Orderly(steps, RefreshCheck(site, prior), StepCheck(site, prior, desired))
    ensures forall i :: 0 <= i < Refreshes(steps) ==> steps[i].urn in prior && steps[i].urn != site.provider
    ensures forall i :: Refreshes(steps) <= i < |steps| ==> steps[i].urn in site.graph && steps[i].urn != site.provider
  {
    hide PreviewOld, PreviewNew, SameMembers, Ownership, DistinctSteps;
    forall i | 0 <= i < Refreshes(steps) ensures steps[i].urn in prior && steps[i].urn != site.provider {
      assert RefreshCheck(site, prior)(steps[i]);
    }
    forall i | Refreshes(steps) <= i < |steps| ensures steps[i].urn in site.graph && steps[i].urn != site.provider {
      assert StepCheck(site, prior, desired)(steps[i], Refreshes(steps) > 0);
    }
  }

  lemma {:induction false} PreviewExactly(
    site: Site, steps: seq<Step>, prior: Rows, desired: Rows, requireRefresh: bool)
    requires PriorSound(site, prior) && prior.Keys <= site.graph.Keys + {site.provider}
    ensures ShownPreview(site, steps, prior, desired, requireRefresh) <==>
      PreviewOk(site, steps, prior, desired, requireRefresh)
  {
    AtExactly(site, steps, prior, desired, requireRefresh);
    hide PreviewOk, NoneTwice, PriorSound, CoversAt, Refreshes, ShowsRefresh, Shows;
    if n :| PreviewAt(site, steps, prior, desired, requireRefresh, n) {
      RefreshesAre(steps, n);
    }
  }

  // ---------------------------------------------------------------- the gate

  /** What the plans ask for, resource by resource. */
  ghost predicate AsksAll(site: Site, plans: Plans, prior: Rows, desired: Rows) {
    && (forall u :: u in plans <==> u in site.graph) && (forall u :: u in desired <==> u in site.graph)
    && forall u :: u in site.graph ==> Asks(site, u, plans[u], Find(prior, u), desired[u])
  }

  /** One coherent graph: rows, plans and preview tell the same story. */
  ghost predicate Coherent(site: Site, preview: Preview, saved: SavedPlan, rows: seq<Row>, requireRefresh: bool) {
    && SoundRows(site, rows) && SoundTogether(site, Inventory(rows)) && saved.pinnedManifest && !preview.maybeCorrupt
    && exists desired :: CoherentWith(site, preview, saved, Inventory(rows), desired, requireRefresh)
  }

  ghost predicate CoherentWith(
    site: Site, preview: Preview, saved: SavedPlan, prior: Rows, desired: Rows, requireRefresh: bool)
  {
    && AsksAll(site, saved.plans, prior, desired) && site.provider in desired
    && Linked(site, desired, IdOf(desired[site.provider])) && MailBound(site, desired)
    && ShownPreview(site, preview.steps, prior, desired, requireRefresh)
  }

  /** An accepted row at its URN: sound as it is, or the legacy provider's. */
  predicate Kept(site: Site, u: Urn, row: Row) {
    && row.urn == u
    && if u == site.provider && ToHarden(site, row) then row.kind == AWS_PROVIDER
       else StateOk(site, row, false, false, false)
  }

  ghost predicate AllKept(site: Site, prior: Rows) {
    prior.Keys <= site.graph.Keys && forall u :: u in prior ==> Kept(site, u, prior[u])
  }

  lemma {:induction false} RowKept(site: Site, row: Row, legacy: bool)
    requires WellFormed(site) && StateOk(site, row, false, legacy && row.kind == AWS_PROVIDER, false)
    ensures row.urn in site.graph && Kept(site, row.urn, row)
  {
    LegacyExactly(site, row.inputs);
    hide LegacySettings, LegacyInputs, SameMembers, ComponentOk, RepositoryOk, MailCheckedInputs, ProviderInputsOk;
  }

  lemma {:induction false} RowsKept(site: Site, rows: seq<Row>)
    requires WellFormed(site) && PriorOk(site, rows)
    ensures AllKept(site, Inventory(rows))
  {
    PriorParts(site, rows);
    hide PriorOk, Kept, StateOk, Inventory, WellFormed;
    var prior := Inventory(rows);
    forall u | u in prior ensures u in site.graph && Kept(site, u, prior[u]) {
      var i :| 0 <= i < |rows| && rows[i].urn == u;
      assert RowCheck(site, IsLegacy(site, rows))(rows[i]);
      RowKept(site, rows[i], IsLegacy(site, rows));
    }
  }

  lemma {:induction false} KeptSound(site: Site, prior: Rows)
    requires AllKept(site, prior)
    ensures PriorSound(site, prior) && prior.Keys <= site.graph.Keys + {site.provider}
  {
    hide StateOk;
  }

  lemma {:induction false} GoalExactly(site: Site, u: Urn, plan: ResourcePlan, prior: Rows, row: Row)
    requires AllKept(site, prior)
    ensures Desired(site, u, plan, Find(prior, u)) == Some(row) <==> Asks(site, u, plan, Find(prior, u), row)
  {
    hide StateOk, Desired, Asks;
    if u !in prior {
      CreatedExactly(site, u, plan, row);
    } else if u == site.provider && ToHarden(site, prior[u]) {
      HardenedExactly(site, u, plan, prior[u], row);
    } else {
      RetainedExactly(site, u, plan, prior[u], row);
    }
  }

  lemma {:induction false} GoalsExactly(site: Site, plans: Plans, prior: Rows, desired: Rows)
    requires AllKept(site, prior)
    ensures AsksAll(site, plans, prior, desired) <==>
      plans.Keys == site.graph.Keys && GoalsOk(site, plans, prior) && desired == DesiredRows(site, plans, prior)
  {
    hide Desired, Asks, AllKept;
    forall u | u in plans && u in desired
      ensures Asks(site, u, plans[u], Find(prior, u), desired[u]) <==>
              Desired(site, u, plans[u], Find(prior, u)) == Some(desired[u])
    {
      GoalExactly(site, u, plans[u], prior, desired[u]);
    }
    if AsksAll(site, plans, prior, desired) {
      assert desired.Keys == plans.Keys == site.graph.Keys;
    }
  }

  lemma {:induction false} WithExactly(
    site: Site, preview: Preview, saved: SavedPlan, prior: Rows, requireRefresh: bool)
    requires AllKept(site, prior)
    ensures (exists desired :: CoherentWith(site, preview, saved, prior, desired, requireRefresh)) <==>
      && saved.plans.Keys == site.graph.Keys && GoalsOk(site, saved.plans, prior)
      && DesiredOk(site, DesiredRows(site, saved.plans, prior))
      && PreviewOk(site, preview.steps, prior, DesiredRows(site, saved.plans, prior), requireRefresh)
  {
    hide AsksAll, DesiredRows, ShownPreview, PreviewOk, AllKept, GoalsOk, Linked, MailBound, AllReferencesOk;
    hide BindingsOk, PriorSound;
    KeptSound(site, prior);
    var wanted := DesiredRows(site, saved.plans, prior);
    forall desired
      ensures CoherentWith(site, preview, saved, prior, desired, requireRefresh) <==>
        && AsksAll(site, saved.plans, prior, desired) && DesiredOk(site, desired)
        && PreviewOk(site, preview.steps, prior, desired, requireRefresh)
    {
      PreviewExactly(site, preview.steps, prior, desired, requireRefresh);
      MailExactly(site, desired);
      if site.provider in desired {
        LinkedExactly(site, desired, IdOf(desired[site.provider]));
      }
    }
    forall desired
      ensures AsksAll(site, saved.plans, prior, desired) <==>
        saved.plans.Keys == site.graph.Keys && GoalsOk(site, saved.plans, prior) && desired == wanted
    {
      GoalsExactly(site, saved.plans, prior, desired);
    }
    hide CoherentWith, DesiredOk;
    assert CoherentWith(site, preview, saved, prior, wanted, requireRefresh) <==>
      AsksAll(site, saved.plans, prior, wanted) && DesiredOk(site, wanted)
      && PreviewOk(site, preview.steps, prior, wanted, requireRefresh);
  }

  /** The gate passes exactly when rows, plans and preview tell one story. */
  lemma {:induction false} AcceptsExactly(
    site: Site, preview: Preview, saved: SavedPlan, rows: seq<Row>, requireRefresh: bool)
    requires WellFormed(site)
    ensures Accepts(site, preview, saved, rows, requireRefresh) <==>
      Coherent(site, preview, saved, rows, requireRefresh)
  {
    hide PriorOk, SoundRows, SoundTogether, GoalsOk, DesiredOk, PreviewOk, CoherentWith, AllKept, DesiredRows;
    hide Inventory, WellFormed;
    ObservedExactly(site, rows);
    if PriorOk(site, rows) {
      RowsKept(site, rows);
      WithExactly(site, preview, saved, Inventory(rows), requireRefresh);
    }
  }
}
