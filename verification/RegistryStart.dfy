/**
 The first registry plan (scripts/poc_registry_plan.py): on every acceptable list of bootstrap rows, be it empty,
 partial or the legacy checkpoint, the plan that hardens a legacy provider, keeps what is there and creates the
 rest is accepted with its preview.
 */
module RegistryStart {
  import opened Options
  import opened Texts
  import opened Json
  import opened RegistryRows
  import opened RegistryPlan
  import opened RegistryHistory
  import opened RegistryProperties

  // ---------------------------------------------------------------- the installed graph

  function NodesOf(site: Site, kind: Kind): set<Urn> {
    set u | u in site.graph && site.graph[u].kind == kind
  }

  predicate NodeOk(site: Site, u: Urn) {
    && u in site.graph
    && var node := site.graph[u];
    && (node.parent == "" || node.parent in site.graph)
    && (node.kind.Provider? ==> u == site.provider)
    && (node.kind == Ecr ==> u in site.repositories && ARN in site.repositories[u].outputs)
    && (node.kind == Dns ==> node.index < 3)
  }

  predicate Linked(kind: Kind) {
    kind in {Ecr, Ses, Dns}
  }

  /**
   The graph as it is installed: parents inside it, one provider, repositories with an ARN, one mail identity with
   its three records; the bootstrap rows need no provider.
   */
  predicate Installed(site: Site, identity: Urn) {
    && WellFormed(site)
    && (forall u :: u in site.graph ==> NodeOk(site, u))
    && (forall u :: u in site.baseline ==> u in site.graph && !Linked(site.graph[u].kind))
    && NodesOf(site, Ses) == {identity} && |NodesOf(site, Dns)| == 3 && site.domain != []
  }

  /** The smallest installed graph: a stack, its provider, and a mail identity with its three records. */
  function SmallestGraph(): Graph {
    var dns := (i: nat) => Node(Dns, "r", true, false, "dkim", i);
    map["r" := Node(Stack, "", false, false, "root", 0), "p" := Node(AWS_PROVIDER, "", true, false, "aws", 0),
        "s" := Node(Ses, "r", true, true, "identity", 0), "0" := dns(0), "1" := dns(1), "2" := dns(2)]
  }

  lemma {:induction false} InstalledPossible() returns (site: Site)
    ensures Installed(site, "s")
  {
    hide Linked;
    site := Site(
      _ => None, SmallestGraph(), "p", {"r", "p"}, [], [], Null, Null, Null, Null, map[], map[],
      T("example.org"), [], Null, map[], map[]);
    assert NodesOf(site, Dns) == {"0", "1", "2"};
    assert NodesOf(site, Ses) == {"s"};
    assert "s" in site.graph && "s" !in site.baseline;
    assert !Linked(Stack) && !Linked(AWS_PROVIDER) by {
      Unlinked();
    }
  }

  lemma {:induction false} Unlinked()
    ensures !Linked(Stack) && !Linked(AWS_PROVIDER)
  {
  }

  // ---------------------------------------------------------------- creations

  function ProviderInputs(site: Site): Members {
    map[REGION := site.region, ACCOUNTS := Arr([site.account]), VERSION := site.version,
        SKIP_CREDENTIALS := Bool(false), SKIP_REGION := Bool(false), SKIP_ACCOUNT := Bool(false)]
  }

  function FreshInputs(site: Site, u: Urn): Members
    requires NodeOk(site, u)
  {
    match site.graph[u].kind
    case Provider(_) => ProviderInputs(site)
    case Ecr => RepositoryInputs(site, site.repositories[u].name)
    case Ses => IdentityInputs(site)
    case Dns => RecordInputs(site, None)
    case _ => map[]
  }

  const RECORDS: Text := T("records")

  function LinkTo(site: Site, kind: Kind, id: Text): Reference {
    if Linked(kind) then ProvidedBy(site.provider, id) else NoProvider
  }

  /** The row a creation asks for; `id` is the provider's, as far as it is known. */
  function FreshRow(site: Site, identity: Urn, u: Urn, id: Text): Row
    requires NodeOk(site, u)
  {
    var node := site.graph[u];
    var dns := node.kind == Dns;
    Row(u, node.kind, node.custom, node.parent, LinkTo(site, node.kind, id),
        if u == site.provider then Some(UNKNOWN) else None, node.protect, false, FreshInputs(site, u), map[],
        if dns then [identity] else [], if dns then map[NAME := [identity], RECORDS := [identity]] else map[], [])
  }

  function FreshPlan(site: Site, row: Row): ResourcePlan
    requires row.urn in site.graph
  {
    ResourcePlan(
      Goal(row.kind, site.graph[row.urn].name, row.custom, row.parent, row.provider, row.protect, false,
           Diff(Some(row.inputs), None, None), NO_CHANGE, row.dependencies, row.propertyDependencies,
           row.secretOutputs),
      [Create], Some(32))
  }

  lemma {:induction false} ProviderInputsFit(site: Site)
    ensures ProviderInputsOk(site, ProviderInputs(site))
  {
    assert |REGION| == 6 && |ACCOUNTS| == 17 && |VERSION| == 7 && |SKIP_CREDENTIALS| == 25 && |SKIP_REGION| == 20;
    assert |SKIP_ACCOUNT| == 23 && |INTERNAL| == 10;
  }

  lemma {:induction false} RepositoryInputsFit(site: Site, name: Text)
    ensures EcrCheckedInputs(site, RepositoryInputs(site, name)) == Some(RepositoryInputs(site, name))
  {
    assert |NAME| == 4 && |T("imageTagMutability")| == 18 && |T("forceDelete")| == 11 && |SCANNING| == 26;
    assert |TAGS| == 4;
    assert |DEFAULTS| == 10 && |REGION| == 6 && |TAGS_ALL| == 7 && |SCAN_ON_PUSH| == 10;
    KeysDiffer();
    var m := RepositoryInputs(site, name);
    assert TAGS[0] != NAME[0];
    assert m[SCANNING := Obj(map[SCAN_ON_PUSH := Bool(true)])] == m;
  }

  lemma {:induction false} IdentityInputsFit(site: Site)
    ensures MailCheckedInputs(site, Ses, IdentityInputs(site)) == Some(IdentityInputs(site))
  {
    assert |T("emailIdentity")| == 13 && |DKIM| == 21 && |TAGS| == 4;
    assert |DEFAULTS| == 10 && |REGION| == 6 && |TAGS_ALL| == 7 && |NEXT_KEY| == 20;
    var m := IdentityInputs(site);
    assert m[DKIM := Obj(map[NEXT_KEY := RSA_2048])] == m;
  }

  lemma {:induction false} RecordInputsFit(site: Site, token: Option<Text>)
    ensures MailCheckedInputs(site, Dns, RecordInputs(site, token)) == Some(RecordInputs(site, token))
    ensures NAME in RecordInputs(site, token) && RECORDS in RecordInputs(site, token) && NAME != RECORDS
    ensures RecordInputs(site, token).Keys == RecordInputs(site, None).Keys
    ensures token.None? ==> RecordInputs(site, token)[NAME] == UNKNOWN_VALUE
  {
    assert |T("zoneId")| == 6 && |T("type")| == 4 && |T("ttl")| == 3 && |T("allowOverwrite")| == 14;
    assert |NAME| == 4 && |RECORDS| == 7 && |DEFAULTS| == 10;
  }

  lemma {:induction false} FreshRepository(site: Site, row: Row)
    requires row.urn in site.repositories && row.inputs == RepositoryInputs(site, site.repositories[row.urn].name)
    requires row.outputs == map[] && row.id.None?
    ensures RepositoryOk(site, row, true)
  {
    hide EcrCheckedInputs, RepositoryInputs;
    RepositoryInputsFit(site, site.repositories[row.urn].name);
  }

  lemma {:induction false} FreshIdentity(site: Site, row: Row, preview: bool)
    requires row.inputs == IdentityInputs(site) && row.outputs == map[] && row.id.None?
    ensures MailCheckedInputs(site, Ses, row.inputs) == Some(row.inputs)
    ensures IdentityOk(site, row, row.inputs, true, preview)
  {
    hide MailCheckedInputs, IdentityInputs, IdentityOutput, DkimOk;
    IdentityInputsFit(site);
  }

  lemma {:induction false} FreshRecord(site: Site, row: Row)
    requires row.inputs == RecordInputs(site, None) && row.outputs == map[] && row.id.None?
    ensures MailCheckedInputs(site, Dns, row.inputs) == Some(row.inputs) && RecordOk(site, row, row.inputs, true)
  {
    hide MailCheckedInputs, RecordInputs;
    RecordInputsFit(site, None);
  }

  lemma {:induction false} FreshKind(site: Site, identity: Urn, u: Urn, id: Text)
    requires NodeOk(site, u)
    ensures var row := FreshRow(site, identity, u, id);
      && row.kind == site.graph[u].kind && row.urn == u
      && (row.kind == Dns ==>
        && row.dependencies == [identity] && NAME != RECORDS
        && row.propertyDependencies == map[NAME := [identity], RECORDS := [identity]])
  {
    hide FreshInputs;
    RecordInputsFit(site, None);
  }

  lemma {:induction false} FreshStateOk(site: Site, identity: Urn, u: Urn, id: Text, preview: bool)
    requires NodeOk(site, u) && WellFormed(site)
    ensures StateOk(site, FreshRow(site, identity, u, id), true, false, preview)
  {
    hide ProviderInputsOk, ProviderInputs, RepositoryInputs, IdentityInputs, RecordInputs, SameMembers;
    hide EcrCheckedInputs, MailCheckedInputs, WellFormed, RepositoryOk, IdentityOk, RecordOk;
    var row := FreshRow(site, identity, u, id);
    ProviderPackage(site);
    match site.graph[u].kind
    case Provider(_) => ProviderInputsFit(site);
    case Ecr => FreshRepository(site, row);
    case Ses => FreshIdentity(site, row, preview);
    case Dns => FreshRecord(site, row);
    case _ =>
  }

  lemma {:induction false} ProviderPackage(site: Site)
    requires WellFormed(site)
    ensures site.provider in site.graph && site.graph[site.provider].kind == AWS_PROVIDER
  {
  }

  lemma {:induction false} FreshDesired(site: Site, identity: Urn, u: Urn, id: Text)
    requires NodeOk(site, u) && WellFormed(site)
    ensures var row := FreshRow(site, identity, u, id); Desired(site, u, FreshPlan(site, row), None) == Some(row)
  {
    FreshStateOk(site, identity, u, id, false);
    hide StateOk, ApplyDiff, FreshInputs, WellFormed;
    AddsApply(FreshRow(site, identity, u, id).inputs);
  }

  // ---------------------------------------------------------------- hardening the legacy provider

  function Hardening(site: Site): Diff {
    Diff(
      Some(map[ACCOUNTS := Arr([site.account]), SKIP_ACCOUNT := Bool(false)]),
      Some(map[SKIP_REGION := Bool(false)]), None)
  }

  function Patched(site: Site, m: Members): Members {
    m + Adds(Hardening(site)) + Updates(Hardening(site))
  }

  function HardeningPlan(site: Site, row: Row): ResourcePlan
    requires row.urn in site.graph
  {
    var plan := UnchangedPlan(site, row);
    plan.(goal := plan.goal.(inputDiff := Hardening(site), outputDiff := Hardening(site)), steps := [Update])
  }

  function HardenedRow(site: Site, row: Row): Row {
    WithId(row).(inputs := Patched(site, row.inputs), outputs := Patched(site, row.outputs))
  }

  lemma {:induction false} LegacyNames(site: Site)
    ensures LegacyInputs(site).Keys == {INTERNAL, REGION, SKIP_CREDENTIALS, SKIP_REGION, VERSION}
    ensures ACCOUNTS !in LegacyInputs(site) && SKIP_ACCOUNT !in LegacyInputs(site) && ACCOUNTS != SKIP_ACCOUNT
    ensures SKIP_REGION !in {INTERNAL, REGION, SKIP_CREDENTIALS, VERSION}
    ensures LegacyInputs(site)[SKIP_CREDENTIALS] == FALSE_TEXT && LegacyInputs(site)[INTERNAL] == Obj(map[])
    ensures LegacyInputs(site)[REGION] == site.region && LegacyInputs(site)[VERSION] == site.version
  {
    assert |REGION| == 6 && |ACCOUNTS| == 17 && |VERSION| == 7 && |SKIP_CREDENTIALS| == 25 && |SKIP_REGION| == 20;
    assert |SKIP_ACCOUNT| == 23 && |INTERNAL| == 10;
  }

  lemma {:induction false} PatchApplies(site: Site, m: Members)
    requires m.Keys <= LegacyInputs(site).Keys && SKIP_REGION in m
    ensures ApplyDiff(Hardening(site), m) == Some(Patched(site, m))
  {
    LegacyNames(site);
    assert Deleted(Hardening(site)) == {};
    assert m - Deleted(Hardening(site)) == m;
    hide LegacyInputs;
  }

  lemma {:induction false} PatchedInputsFit(site: Site, m: Members)
    requires SameMembers(m, LegacyInputs(site))
    ensures ProviderInputsOk(site, Patched(site, m))
  {
    LegacyNames(site);
    SameMembersPointwise(m, LegacyInputs(site));
    hide LegacyInputs, SameMembers;
    var p := Patched(site, m);
    assert p[REGION] == m[REGION] && p[VERSION] == m[VERSION] && p[INTERNAL] == m[INTERNAL];
    assert p[SKIP_CREDENTIALS] == m[SKIP_CREDENTIALS] == FALSE_TEXT;
  }

  /** Patching two equal maps alike leaves them equal. */
  lemma {:induction false} PatchedSame(site: Site, a: Members, b: Members)
    requires SameMembers(a, b)
    ensures SameMembers(Patched(site, a), Patched(site, b))
  {
    SameMembersPointwise(a, b);
    SameMembersPointwise(Patched(site, a), Patched(site, b));
    hide SameMembers;
  }

  lemma {:induction false} PatchedPublic(site: Site, m: Members)
    ensures Patched(site, PublicInputs(m)) == PublicInputs(Patched(site, m))
  {
    assert |ACCOUNTS| == 17 && |SKIP_REGION| == 20 && |SKIP_ACCOUNT| == 23 && |INTERNAL| == 10;
  }

  lemma {:induction false} HardenedStateOk(site: Site, row: Row)
    requires WellFormed(site) && row.urn == site.provider && StateOk(site, row, false, true, false)
    ensures StateOk(site, HardenedRow(site, row), false, false, false)
  {
    PatchedInputsFit(site, row.inputs);
    PatchedSame(site, row.outputs, PublicInputs(row.inputs));
    PatchedPublic(site, row.inputs);
    hide ProviderInputsOk, SameMembers, Patched, PublicInputs, LegacyInputs;
  }

  lemma {:induction false} HardeningValues(site: Site, row: Row)
    requires WellFormed(site) && row.urn == site.provider && StateOk(site, row, false, true, false)
    ensures row.urn in site.graph
    ensures GoalValues(site, HardeningPlan(site, row).goal, Some(row), true)
      == Some((Patched(site, row.inputs), Patched(site, row.outputs)))
  {
    LegacyRow(site, row);
    PatchApplies(site, row.inputs);
    PatchApplies(site, row.outputs);
    hide StateOk, ApplyDiff, Patched, LegacyInputs, WellFormed, SameMembers, SameDiff, SemanticInputs, RecheckDiff;
  }

  lemma {:induction false} HardenedDesired(site: Site, row: Row)
    requires WellFormed(site) && row.urn == site.provider && StateOk(site, row, false, true, false)
    ensures row.urn in site.graph
    ensures Desired(site, row.urn, HardeningPlan(site, row), Some(row)) == Some(HardenedRow(site, row))
  {
    HardenedStateOk(site, row);
    HardeningValues(site, row);
    LegacyRow(site, row);
    hide StateOk, GoalValues, Hardening, Patched, LegacyInputs, WellFormed, SameMembers;
  }

  lemma {:induction false} LegacyRow(site: Site, row: Row)
    requires WellFormed(site) && row.urn == site.provider && StateOk(site, row, false, true, false)
    ensures row.kind == AWS_PROVIDER && row.urn in site.graph && SameMembers(row.inputs, LegacyInputs(site))
    ensures row.inputs.Keys <= LegacyInputs(site).Keys && row.outputs.Keys <= LegacyInputs(site).Keys
    ensures SKIP_REGION in row.inputs && SKIP_REGION in row.outputs
  {
    LegacyNames(site);
    SameMembersPointwise(row.inputs, LegacyInputs(site));
    SameMembersPointwise(row.outputs, PublicInputs(row.inputs));
    hide LegacyInputs, SameMembers;
  }

  // ---------------------------------------------------------------- the plan on bootstrap rows

  /** Rows of the bootstrap by URN, each acceptable, the legacy provider's as such. */
  predicate Bootstrapped(site: Site, prior: Rows) {
    && prior.Keys <= site.baseline
    && forall u :: u in prior ==> prior[u].urn == u && StateOk(site, prior[u], false, Hardened(site, prior, u), false)
  }

  lemma {:induction false} PriorBootstrapped(site: Site, rows: seq<Row>)
    requires WellFormed(site) && PriorOk(site, rows) && Urns(rows) <= site.baseline
    ensures DistinctUrns(rows) && Bootstrapped(site, Inventory(rows))
  {
    hide StateOk, PriorOk, SameMembers, LegacyInputs;
    PriorParts(site, rows);
    var prior := Inventory(rows);
    forall u | u in prior ensures prior[u].urn == u && StateOk(site, prior[u], false, Hardened(site, prior, u), false) {
      var i :| 0 <= i < |rows| && rows[i].urn == u;
      assert RowCheck(site, IsLegacy(site, rows))(rows[i]);
      RowLegacy(site, rows, i);
    }
  }

  /** The excused row is the one that will be hardened. */
  lemma {:induction false} RowLegacy(site: Site, rows: seq<Row>, i: nat)
    requires WellFormed(site) && i < |rows|
    requires StateOk(site, rows[i], false, IsLegacy(site, rows) && rows[i].kind == AWS_PROVIDER, false)
    ensures (IsLegacy(site, rows) && rows[i].kind == AWS_PROVIDER)
      <==> (rows[i].urn == site.provider && SameMembers(rows[i].inputs, LegacyInputs(site)))
  {
    hide SameMembers, LegacyInputs, ProviderInputsOk;
    if SameMembers(rows[i].inputs, LegacyInputs(site)) && rows[i].kind == AWS_PROVIDER {
      assert LegacyProvider(site, rows[i]);
    }
  }

  function StartPlan(site: Site, identity: Urn, prior: Rows, u: Urn): ResourcePlan
    requires NodeOk(site, u) && (u in prior ==> prior[u].urn == u)
  {
    if u !in prior then FreshPlan(site, FreshRow(site, identity, u, ProviderId(site, prior)))
    else if Hardened(site, prior, u) then HardeningPlan(site, prior[u])
    else UnchangedPlan(site, prior[u])
  }

  /** The row that plan describes. */
  function StartRow(site: Site, identity: Urn, prior: Rows, u: Urn): Row
    requires NodeOk(site, u)
  {
    if u !in prior then FreshRow(site, identity, u, ProviderId(site, prior))
    else if Hardened(site, prior, u) then HardenedRow(site, prior[u])
    else WithId(prior[u])
  }

  lemma {:induction false} StartDesired(site: Site, identity: Urn, prior: Rows, u: Urn)
    requires Installed(site, identity) && Bootstrapped(site, prior) && u in site.graph
    ensures Desired(site, u, StartPlan(site, identity, prior, u), Find(prior, u))
      == Some(StartRow(site, identity, prior, u))
  {
    hide Desired, StateOk, FreshRow, HardenedRow, FreshPlan, HardeningPlan, UnchangedPlan, WellFormed;
    hide SameMembers, LegacyInputs;
    if u !in prior {
      FreshDesired(site, identity, u, ProviderId(site, prior));
    } else if Hardened(site, prior, u) {
      HardenedDesired(site, prior[u]);
    } else {
      UnchangedDesired(site, prior[u]);
    }
  }

  function StartPlans(site: Site, identity: Urn, prior: Rows): Plans
    requires Installed(site, identity) && Bootstrapped(site, prior)
  {
    map u | u in site.graph :: StartPlan(site, identity, prior, u)
  }

  function StartRows(site: Site, identity: Urn, prior: Rows): Rows
    requires Installed(site, identity)
  {
    map u | u in site.graph :: StartRow(site, identity, prior, u)
  }

  lemma {:induction false} StartGoals(site: Site, identity: Urn, prior: Rows)
    requires Installed(site, identity) && Bootstrapped(site, prior)
    ensures StartPlans(site, identity, prior).Keys == site.graph.Keys
    ensures GoalsOk(site, StartPlans(site, identity, prior), prior)
    ensures DesiredRows(site, StartPlans(site, identity, prior), prior) == StartRows(site, identity, prior)
  {
    hide Desired, Installed, Bootstrapped, StartPlan, StartRow;
    var plans := StartPlans(site, identity, prior);
    forall u | u in plans
      ensures Desired(site, u, plans[u], Find(prior, u)) == Some(StartRows(site, identity, prior)[u])
    {
      StartDesired(site, identity, prior, u);
    }
  }

  /** Everything the rest needs to know of a row of the plan. */
  lemma {:induction false} StartPlace(site: Site, identity: Urn, prior: Rows, u: Urn)
    requires Installed(site, identity) && Bootstrapped(site, prior) && u in site.graph
    ensures var row := StartRow(site, identity, prior, u);
      row.urn == u && row.kind == site.graph[u].kind && (u in prior ==> !Linked(row.kind))
  {
    hide InputsOutputsOk, Hardened, HardenedRow, WellFormed, FreshInputs;
    if u in prior {
      HardenedPlace(site, prior[u]);
    }
  }

  lemma {:induction false} HardenedPlace(site: Site, row: Row)
    ensures var now := HardenedRow(site, row);
      && now == WithId(row).(inputs := now.inputs, outputs := now.outputs) && row.inputs.Keys <= now.inputs.Keys
  {
  }

  /** A row with some more inputs, an id written out and other outputs has the same references. */
  lemma {:induction false} ClosedWith(row: Row, now: Row, urns: set<Urn>, more: set<Urn>)
    requires Closed(row, urns) && urns <= more && row.inputs.Keys <= now.inputs.Keys
    requires now == row.(id := now.id, inputs := now.inputs, outputs := now.outputs)
    ensures Closed(now, more)
  {
  }

  lemma {:induction false} FreshReferences(site: Site, identity: Urn, u: Urn, id: Text)
    requires Installed(site, identity) && u in site.graph
    ensures ReferencesOk(site, FreshRow(site, identity, u, id), site.graph.Keys, id)
  {
    assert NodeOk(site, u);
    assert identity in NodesOf(site, Ses);
    RecordInputsFit(site, None);
    hide RecordInputs, ProviderInputs, RepositoryInputs, IdentityInputs, WellFormed;
  }

  lemma {:induction false} StartReferences(site: Site, identity: Urn, prior: Rows, u: Urn)
    requires Installed(site, identity) && Bootstrapped(site, prior) && u in site.graph
    requires AllReferencesOk(site, prior, ProviderId(site, prior))
    ensures ReferencesOk(site, StartRow(site, identity, prior, u), site.graph.Keys, ProviderId(site, prior))
  {
    if u in prior {
      hide StateOk, Hardened, HardenedRow, WellFormed, FreshRow, Closed;
      StartPlace(site, identity, prior, u);
      HardenedPlace(site, prior[u]);
      assert ReferencesOk(site, prior[u], prior.Keys, ProviderId(site, prior));
      ClosedWith(prior[u], StartRow(site, identity, prior, u), prior.Keys, site.graph.Keys);
    } else {
      FreshReferences(site, identity, u, ProviderId(site, prior));
    }
  }

  lemma {:induction false} StartProvider(site: Site, identity: Urn, prior: Rows)
    requires Installed(site, identity) && Bootstrapped(site, prior)
    ensures site.provider in site.graph
    ensures IdOf(StartRow(site, identity, prior, site.provider)) == ProviderId(site, prior)
  {
    hide StateOk, Hardened, FreshInputs;
    if site.provider in prior {
      HardenedPlace(site, prior[site.provider]);
    }
  }

  lemma {:induction false} FreshBound(site: Site, identity: Urn, u: Urn, id: Text)
    requires Installed(site, identity) && u in site.graph && site.graph[u].kind == Dns
    ensures identity in site.graph
    ensures RecordBound(site, FreshRow(site, identity, identity, id), FreshRow(site, identity, u, id))
  {
    assert NodeOk(site, u);
    assert identity in NodesOf(site, Ses);
    assert identity != site.provider by {
      ProviderPackage(site);
    }
    RecordInputsFit(site, None);
    hide RecordInputs, MailCheckedInputs, ProviderInputs, RepositoryInputs, IdentityInputs, WellFormed;
  }

  lemma {:induction false} KindsOf(site: Site, rows: Rows, kind: Kind)
    requires rows.Keys == site.graph.Keys && forall u :: u in rows ==> rows[u].kind == site.graph[u].kind
    ensures OfKind(rows, kind) == NodesOf(site, kind)
  {
  }

  /** Bindings hold if each record is bound to the one identity. */
  lemma {:induction false} BindingsFrom(site: Site, identity: Urn, rows: Rows)
    requires Installed(site, identity) && rows.Keys == site.graph.Keys
    requires forall u :: u in rows ==> rows[u].kind == site.graph[u].kind
    requires identity in rows && forall u :: u in rows && site.graph[u].kind == Dns ==>
      RecordBound(site, rows[identity], rows[u])
    ensures BindingsOk(site, rows)
  {
    hide RecordBound, WellFormed, NodeOk;
    KindsOf(site, rows, Ses);
    KindsOf(site, rows, Dns);
  }

  lemma {:induction false} StartDesiredOk(site: Site, identity: Urn, prior: Rows)
    requires Installed(site, identity) && Bootstrapped(site, prior)
    requires AllReferencesOk(site, prior, ProviderId(site, prior))
    ensures DesiredOk(site, StartRows(site, identity, prior))
  {
    hide Installed, Bootstrapped, AllReferencesOk, ReferencesOk, RecordBound, BindingsOk, StartRow;
    var rows := StartRows(site, identity, prior);
    forall u | u in site.graph
      ensures ReferencesOk(site, rows[u], site.graph.Keys, ProviderId(site, prior))
      ensures rows[u].kind == site.graph[u].kind
    {
      StartReferences(site, identity, prior, u);
      StartPlace(site, identity, prior, u);
    }
    StartProvider(site, identity, prior);
    StartBound(site, identity, prior);
    BindingsFrom(site, identity, rows);
    assert AllReferencesOk(site, rows, ProviderId(site, prior)) by {
      ReferencesFrom(site, rows, ProviderId(site, prior));
    }
  }

  lemma {:induction false} ReferencesFrom(site: Site, rows: Rows, id: Text)
    requires forall u :: u in rows ==> ReferencesOk(site, rows[u], rows.Keys, id)
    ensures AllReferencesOk(site, rows, id)
  {
  }

  lemma {:induction false} StartBound(site: Site, identity: Urn, prior: Rows)
    requires Installed(site, identity) && Bootstrapped(site, prior)
    ensures identity in site.graph
    ensures forall u :: u in site.graph && site.graph[u].kind == Dns ==>
      RecordBound(site, StartRow(site, identity, prior, identity), StartRow(site, identity, prior, u))
  {
    hide RecordBound, FreshRow, WellFormed, HardenedRow, Hardened, StateOk;
    assert identity in NodesOf(site, Ses);
    forall u | u in site.graph && site.graph[u].kind == Dns
      ensures RecordBound(site, StartRow(site, identity, prior, identity), StartRow(site, identity, prior, u))
    {
      FreshBound(site, identity, u, ProviderId(site, prior));
    }
  }

  // ---------------------------------------------------------------- its preview

  function FreshStep(row: Row): Step {
    Step(row.urn, Create, row.provider, None, row, false)
  }

  predicate InGraph(site: Site, order: seq<Urn>) {
    forall i :: 0 <= i < |order| ==> order[i] in site.graph
  }

  function FreshSteps(site: Site, identity: Urn, prior: Rows, order: seq<Urn>): seq<Step>
    requires Installed(site, identity) && InGraph(site, order)
  {
    seq(|order|, i requires 0 <= i < |order| => FreshStep(FreshRow(site, identity, order[i], ProviderId(site, prior))))
  }

  /** Refreshes of the observed rows, the same rows again, and the creations in some order. */
  function StartPreview(site: Site, identity: Urn, rows: seq<Row>, order: seq<Urn>): Preview
    requires Installed(site, identity) && DistinctUrns(rows) && InGraph(site, order)
  {
    Preview(
      ShowRows(rows, site.provider, Refresh)
      + (ShowRows(rows, site.provider, Same) + FreshSteps(site, identity, Inventory(rows), order)), false)
  }

  lemma {:induction false} FreshStepOk(site: Site, identity: Urn, prior: Rows, desired: Rows, u: Urn, refreshed: bool)
    requires Installed(site, identity) && u in site.graph && u !in prior && u != site.provider && u in desired
    requires desired[u] == FreshRow(site, identity, u, ProviderId(site, prior))
    ensures PreviewStepOk(site, FreshStep(desired[u]), prior, desired, refreshed)
  {
    FreshStateOk(site, identity, u, ProviderId(site, prior), true);
    assert NodeOk(site, u);
    hide StateOk, FreshInputs, WellFormed, ProviderId, Linked;
    assert FreshStep(desired[u]).newState == desired[u] && desired[u].id.None?;
  }

  lemma {:induction false} KeptStepOk(site: Site, prior: Rows, desired: Rows, row: Row)
    requires row.urn in prior && prior[row.urn] == row && row.urn != site.provider && row.urn in site.graph
    requires StateOk(site, row, false, false, false) && row.urn in desired && desired[row.urn] == WithId(row)
    ensures RefreshStepOk(site, ShowRow(row, Refresh), prior)
    ensures PreviewStepOk(site, ShowRow(row, Same), prior, desired, true)
  {
    UnchangedStepOk(site, prior, row);
    hide StateOk, PreviewOld, PreviewNew;
    assert WithIds(prior)[row.urn] == desired[row.urn];
  }

  /** `order` lists the resources to be created, each once; the provider is not shown. */
  ghost predicate OrdersFresh(site: Site, prior: Rows, order: seq<Urn>) {
    Unique(order) && forall u :: u in order <==> u in site.graph && u !in prior && u != site.provider
  }

  lemma {:induction false} FreshInGraph(site: Site, prior: Rows, order: seq<Urn>)
    requires OrdersFresh(site, prior, order)
    ensures InGraph(site, order)
  {
    assert forall i :: 0 <= i < |order| ==> order[i] in order;
  }

  lemma {:induction false} KeptSteps(site: Site, identity: Urn, rows: seq<Row>, op: Operation)
    requires Installed(site, identity) && DistinctUrns(rows) && Bootstrapped(site, Inventory(rows))
    requires op == Refresh || op == Same
    ensures var steps := ShowRows(rows, site.provider, op);
      && Enumerates(steps, Inventory(rows).Keys - {site.provider})
      && (forall i :: 0 <= i < |steps| ==> steps[i].op == op)
      && (op == Refresh ==> forall i :: 0 <= i < |steps| ==> RefreshStepOk(site, steps[i], Inventory(rows)))
      && (op == Same ==> forall i :: 0 <= i < |steps| ==>
        PreviewStepOk(site, steps[i], Inventory(rows), StartRows(site, identity, Inventory(rows)), true))
  {
    hide StateOk, RefreshStepOk, PreviewStepOk, ShowRows, Enumerates, SameMembers, LegacyInputs, NodeOk, WellFormed;
    var prior, desired := Inventory(rows), StartRows(site, identity, Inventory(rows));
    var steps := ShowRows(rows, site.provider, op);
    ShowRowsEnumerate(rows, site.provider, op);
    forall i | 0 <= i < |steps|
      ensures steps[i].op == op
      ensures op == Refresh ==> RefreshStepOk(site, steps[i], prior)
      ensures op == Same ==> PreviewStepOk(site, steps[i], prior, desired, true)
    {
      var j := ShownFrom(rows, site.provider, op, i);
      assert rows[j].urn in prior && rows[j].urn in site.baseline;
      KeptStepOk(site, prior, desired, rows[j]);
    }
  }

  lemma {:induction false} FreshStepsOk(site: Site, identity: Urn, prior: Rows, order: seq<Urn>, refreshed: bool)
    requires Installed(site, identity) && OrdersFresh(site, prior, order)
    ensures InGraph(site, order)
    ensures var steps := FreshSteps(site, identity, prior, order);
      && Enumerates(steps, site.graph.Keys - prior.Keys - {site.provider})
      && (forall i :: 0 <= i < |steps| ==> steps[i].op == Create)
      && forall i :: 0 <= i < |steps| ==>
        PreviewStepOk(site, steps[i], prior, StartRows(site, identity, prior), refreshed)
  {
    hide PreviewStepOk, FreshRow, NodeOk, WellFormed, HardenedRow, Hardened;
    assert forall i :: 0 <= i < |order| ==> order[i] in order;
    var steps := FreshSteps(site, identity, prior, order);
    forall i | 0 <= i < |order|
      ensures steps[i].urn == order[i] && steps[i].op == Create
      ensures PreviewStepOk(site, steps[i], prior, StartRows(site, identity, prior), refreshed)
    {
      FreshKind(site, identity, order[i], ProviderId(site, prior));
      FreshStepOk(site, identity, prior, StartRows(site, identity, prior), order[i], refreshed);
    }
    forall u | u in order ensures u in StepUrns(steps) {
      var i :| 0 <= i < |order| && order[i] == u;
      assert steps[i].urn == u;
    }
    assert StepUrns(steps) == site.graph.Keys - prior.Keys - {site.provider};
  }

  lemma {:induction false} EnumeratesBoth(a: seq<Step>, b: seq<Step>, s: set<Urn>, t: set<Urn>)
    requires Enumerates(a, s) && Enumerates(b, t) && s !! t
    ensures Enumerates(a + b, s + t)
  {
    var all := a + b;
    assert forall i :: 0 <= i < |a| ==> a[i].urn in StepUrns(a) && all[i] == a[i];
    assert forall i :: 0 <= i < |b| ==> b[i].urn in StepUrns(b) && all[|a| + i] == b[i];
    forall u | u in t ensures u in StepUrns(all) {
      var i :| 0 <= i < |b| && b[i].urn == u;
      assert all[|a| + i].urn == u;
    }
    forall u | u in s ensures u in StepUrns(all) {
      var i :| 0 <= i < |a| && a[i].urn == u;
      assert all[i].urn == u;
    }
  }

  lemma {:induction false} StartPreviewOk(
    site: Site, identity: Urn, rows: seq<Row>, order: seq<Urn>, requireRefresh: bool)
    requires Installed(site, identity) && DistinctUrns(rows) && Bootstrapped(site, Inventory(rows))
    requires OrdersFresh(site, Inventory(rows), order)
    ensures InGraph(site, order) && !StartPreview(site, identity, rows, order).maybeCorrupt
    ensures PreviewOk(site, StartPreview(site, identity, rows, order).steps, Inventory(rows),
                      StartRows(site, identity, Inventory(rows)), requireRefresh)
  {
    hide RefreshStepOk, PreviewStepOk, ShowRows, StartRows, Inventory, Orderly, Refreshes, FreshSteps, NodeOk;
    hide Bootstrapped, DistinctSteps, OrdersFresh, DistinctUrns;
    var prior, desired := Inventory(rows), StartRows(site, identity, Inventory(rows));
    FreshInGraph(site, prior, order);
    var a, b := ShowRows(rows, site.provider, Refresh), ShowRows(rows, site.provider, Same);
    KeptSteps(site, identity, rows, Refresh);
    KeptSteps(site, identity, rows, Same);
    FreshStepsOk(site, identity, prior, order, a != []);
    var c := FreshSteps(site, identity, prior, order);
    UrnsEmpty(a);
    UrnsEmpty(b);
    EnumeratesBoth(b, c, prior.Keys - {site.provider}, site.graph.Keys - prior.Keys - {site.provider});
    BootstrapInGraph(site, identity, prior);
    hide Enumerates;
    PreviewFrom(site, prior, desired, a, b + c, requireRefresh);
  }

  lemma {:induction false} BootstrapInGraph(site: Site, identity: Urn, prior: Rows)
    requires Installed(site, identity) && Bootstrapped(site, prior)
    ensures prior.Keys <= site.graph.Keys
  {
  }

  lemma {:induction false} StartAccepted(
    site: Site, identity: Urn, rows: seq<Row>, order: seq<Urn>, requireRefresh: bool)
    requires Installed(site, identity) && PriorOk(site, rows) && Urns(rows) <= site.baseline
    requires DistinctUrns(rows) && OrdersFresh(site, Inventory(rows), order)
    ensures InGraph(site, order)
    ensures Bootstrapped(site, Inventory(rows))
    ensures Accepts(site, StartPreview(site, identity, rows, order),
                    SavedPlan(true, StartPlans(site, identity, Inventory(rows))), rows, requireRefresh)
  {
    hide PriorOk, GoalsOk, DesiredOk, PreviewOk, Accepts, Bootstrapped, NodeOk, WellFormed, StartPreview, StartPlan;
    hide AllReferencesOk, BindingsOk, OrdersFresh, StartRows, Inventory, Urns, DistinctUrns, InGraph, StartPlans;
    var prior := Inventory(rows);
    PriorParts(site, rows);
    PriorBootstrapped(site, rows);
    StartGoals(site, identity, prior);
    StartDesiredOk(site, identity, prior);
    StartPreviewOk(site, identity, rows, order, requireRefresh);
    AcceptedBy(site, StartPreview(site, identity, rows, order), StartPlans(site, identity, prior), rows,
               StartRows(site, identity, prior), requireRefresh);
  }
}
