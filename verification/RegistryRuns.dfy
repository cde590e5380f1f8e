/**
 Histories of registry plans start and go on (scripts/poc_registry_plan.py): on every acceptable list of rows some
 plan is accepted whose replay, with whatever ids and mail tokens the cloud gives out, leaves rows that are
 acceptable again.
 */
module RegistryRuns {
  import opened Options
  import opened Texts
  import opened Json
  import opened RegistryRows
  import opened RegistryPlan
  import opened RegistryHistory
  import opened RegistryProperties
  import opened RegistryStart

  /** What the cloud answers while the plan is carried out: the provider's id, and the identity's tokens. */
  datatype Answers = Answers(id: Text, tokens: Value)

  predicate AnswersOk(a: Answers) {
    a.id != [] && a.id != UNKNOWN && Tokens(a.tokens).Some?
  }

  lemma {:induction false} AnswersPossible() returns (a: Answers)
    ensures AnswersOk(a)
  {
    var x, y, z := seq(32, _ => 0x61), seq(32, _ => 0x62), seq(32, _ => 0x63);
    assert x[0] != y[0] && y[0] != z[0] && x[0] != z[0];
    a := Answers(T("id"), Arr([Str(x), Str(y), Str(z)]));
    assert |a.id| == 2 && |UNKNOWN| == 36;
  }

  // ---------------------------------------------------------------- what a replay stores

  /** The provider's id once the plan is carried out. */
  function LearnedId(site: Site, prior: Rows, a: Answers): Text {
    if site.provider in prior then IdOf(prior[site.provider]) else a.id
  }

  function RecordId(site: Site, token: Text): Text {
    site.zone + T("_") + (token + T("._domainkey.") + site.domain) + T("_CNAME")
  }

  /** What is stored for a created resource. */
  function StoredFresh(site: Site, identity: Urn, u: Urn, id: Text, tokens: Value): Row
    requires NodeOk(site, u) && Tokens(tokens).Some?
  {
    var row := FreshRow(site, identity, u, id);
    match row.kind
    case Provider(_) => row.(id := Some(id))
    case Ecr =>
      row.(id := Some(site.repositories[u].name), outputs := map[ARN := site.repositories[u].outputs[ARN]])
    case Ses =>
      row.(id := Some(site.domain), outputs := map[ARN := site.identityArn, DKIM := Obj(map[TOKENS := tokens])])
    case Dns =>
      var token := Tokens(tokens).value[site.graph[u].index];
      row.(id := Some(RecordId(site, token)), inputs := RecordInputs(site, Some(token)))
    case _ => row.(id := None, outputs := if row.kind in site.components then site.components[row.kind] else map[])
  }

  function StoredRow(site: Site, identity: Urn, prior: Rows, a: Answers, u: Urn): Row
    requires NodeOk(site, u) && AnswersOk(a)
  {
    if u !in prior then StoredFresh(site, identity, u, LearnedId(site, prior, a), a.tokens)
    else if Hardened(site, prior, u) then HardenedRow(site, prior[u])
    else prior[u]
  }

  lemma {:induction false} StoredRepository(site: Site, row: Row)
    requires row.urn in site.repositories && ARN in site.repositories[row.urn].outputs
    requires row.inputs == RepositoryInputs(site, site.repositories[row.urn].name)
    requires row.id == Some(site.repositories[row.urn].name)
    requires row.outputs == map[ARN := site.repositories[row.urn].outputs[ARN]]
    ensures RepositoryOk(site, row, false)
  {
    hide EcrCheckedInputs, RepositoryInputs;
    RepositoryInputsFit(site, site.repositories[row.urn].name);
  }

  lemma {:induction false} StoredIdentity(site: Site, row: Row, tokens: Value)
    requires row.inputs == IdentityInputs(site) && row.id == Some(site.domain) && Tokens(tokens).Some?
    requires row.outputs == map[ARN := site.identityArn, DKIM := Obj(map[TOKENS := tokens])]
    ensures MailCheckedInputs(site, Ses, row.inputs) == Some(row.inputs)
    ensures IdentityOk(site, row, row.inputs, false, false)
  {
    hide MailCheckedInputs, IdentityInputs, DkimOk, Tokens, IdentityOutput;
    IdentityInputsFit(site);
    IdentityNames(site);
    StoredDkim(tokens);
    StoredIdentityOutputs(site, row.outputs, tokens);
  }

  lemma {:induction false} StoredIdentityOutputs(site: Site, outputs: Members, tokens: Value)
    requires outputs == map[ARN := site.identityArn, DKIM := Obj(map[TOKENS := tokens])] && Tokens(tokens).Some?
    ensures var expected := IdentityInputs(site) + site.identityOutputs
         + map[ID := Str(site.domain), ARN := site.identityArn, REGION := site.region, TAGS_ALL := site.tags];
      forall k :: k in outputs ==> IdentityOutput(site, k, outputs[k], expected, false, false)
  {
    hide IdentityInputs, DkimOk, Tokens;
    IdentityNames(site);
    StoredDkim(tokens);
  }

  lemma {:induction false} IdentityNames(site: Site)
    ensures DKIM in IdentityInputs(site)
    ensures ARN != DKIM && ARN != VERIFICATION && ARN != VERIFIED && ARN != REGION && ARN != TAGS_ALL && ARN != ID
  {
    assert |ARN| == 3 && |DKIM| == 21 && |VERIFICATION| == 18 && |VERIFIED| == 24 && |REGION| == 6 && |TAGS_ALL| == 7;
    assert |ID| == 2;
  }

  lemma {:induction false} StoredDkim(tokens: Value)
    requires Tokens(tokens).Some?
    ensures DkimOk(Obj(map[TOKENS := tokens]), false, false)
  {
    hide Tokens;
    assert |TOKENS| == 6 && |PRIVATE_KEY| == 23 && |T("domainSigningSelector")| == 21 && |NEXT_KEY| == 20;
    assert |T("currentSigningKeyLength")| == 23 && |T("signingAttributesOrigin")| == 23;
    assert STATUS[0] != TOKENS[0];
  }

  lemma {:induction false} FirstLabelOf(token: Text, rest: Text)
    requires forall i :: 0 <= i < |token| ==> token[i] != 0x2E
    ensures FirstLabel(token + T(".") + rest) == token
  {
    var s := token + T(".") + rest;
    if token == [] {
      assert s[0] == 0x2E;
    } else {
      assert s[1..] == token[1..] + T(".") + rest;
      FirstLabelOf(token[1..], rest);
    }
  }

  lemma {:induction false} RecordName(site: Site, token: Text)
    requires TokenText(token)
    ensures var name := token + T("._domainkey.") + site.domain;
      name != UNKNOWN && FirstLabel(name) == token
  {
    assert |UNKNOWN| == 36;
    var rest := T("_domainkey.") + site.domain;
    assert T("._domainkey.") == T(".") + T("_domainkey.");
    assert token + T("._domainkey.") + site.domain == token + T(".") + rest;
    FirstLabelOf(token, rest);
  }

  lemma {:induction false} StoredRecord(site: Site, row: Row, token: Text)
    requires row.inputs == RecordInputs(site, Some(token)) && TokenText(token)
    requires row.outputs == map[] && row.id == Some(RecordId(site, token))
    ensures MailCheckedInputs(site, Dns, row.inputs) == Some(row.inputs)
    ensures RecordOk(site, row, row.inputs, false)
  {
    RecordInputsFit(site, Some(token));
    RecordNameAt(site, token);
    RecordName(site, token);
    hide MailCheckedInputs, RecordInputs, TokenText, FirstLabel;
  }

  lemma {:induction false} StoredStateOk(site: Site, identity: Urn, u: Urn, id: Text, tokens: Value)
    requires NodeOk(site, u) && WellFormed(site) && Tokens(tokens).Some?
    ensures StateOk(site, StoredFresh(site, identity, u, id, tokens), false, false, false)
  {
    hide ProviderInputsOk, ProviderInputs, RepositoryInputs, IdentityInputs, RecordInputs, SameMembers;
    hide EcrCheckedInputs, MailCheckedInputs, WellFormed, RepositoryOk, IdentityOk, RecordOk, RecordId, ComponentOk;
    var row := StoredFresh(site, identity, u, id, tokens);
    ProviderPackage(site);
    match site.graph[u].kind
    case Provider(_) => ProviderInputsFit(site);
    case Ecr => StoredRepository(site, row);
    case Ses => StoredIdentity(site, row, tokens);
    case Dns => StoredRecord(site, row, Tokens(tokens).value[site.graph[u].index]);
    case _ => StoredComponent(site, row);
  }

  lemma {:induction false} StoredComponent(site: Site, row: Row)
    requires row.inputs == map[] && row.id.None?
    requires row.outputs == if row.kind in site.components then site.components[row.kind] else map[]
    ensures ComponentOk(site, row, false)
  {
  }

  lemma {:induction false} AgreesSelf(v: Value)
    ensures Agrees(v, v)
  {
    match v
    case Obj(m) =>
      forall k | k in m ensures Agrees(m[k], m[k]) {
        AgreesSelf(m[k]);
      }
    case Arr(items) =>
      forall i | 0 <= i < |items| ensures Agrees(items[i], items[i]) {
        AgreesSelf(items[i]);
      }
    case _ =>
  }

  lemma {:induction false} InputsAgreeSelf(m: Members)
    ensures InputsAgree(m, m)
  {
    hide Agrees;
    forall k | k in m ensures Agrees(m[k], m[k]) {
      AgreesSelf(m[k]);
    }
  }

  /** A record with a token has every value the record without one knows. */
  lemma {:induction false} RecordAgrees(site: Site, token: Text)
    ensures InputsAgree(RecordInputs(site, None), RecordInputs(site, Some(token)))
  {
    RecordInputsFit(site, Some(token));
    var a, b := RecordInputs(site, None), RecordInputs(site, Some(token));
    forall k | k in a ensures Agrees(a[k], b[k]) {
      if k != NAME && k != RECORDS {
        AgreesSelf(a[k]);
      }
    }
  }

  lemma {:induction false} CreatedBy(goal: Row, was: Row, now: Row)
    requires goal == was.(provider := goal.provider) && LinkAgrees(goal.provider, was.provider)
    requires now == was.(id := now.id, inputs := now.inputs, outputs := now.outputs)
    requires InputsAgree(goal.inputs, now.inputs)
    ensures Created(goal, now)
  {
    hide InputsAgree;
  }

  lemma {:induction false} FreshLink(site: Site, identity: Urn, u: Urn, known: Text, id: Text)
    requires NodeOk(site, u) && (known == id || known == UNKNOWN)
    ensures var goal, was := FreshRow(site, identity, u, known), FreshRow(site, identity, u, id);
      goal == was.(provider := goal.provider) && LinkAgrees(goal.provider, was.provider)
  {
    hide FreshInputs;
  }

  lemma {:induction false} StoredCreated(
    site: Site, identity: Urn, u: Urn, known: Text, id: Text, tokens: Value)
    requires NodeOk(site, u) && Tokens(tokens).Some? && (known == id || known == UNKNOWN)
    ensures Created(FreshRow(site, identity, u, known), StoredFresh(site, identity, u, id, tokens))
  {
    FreshLink(site, identity, u, known, id);
    StoredPlace(site, identity, u, id, tokens);
    StoredAgrees(site, identity, u, id, tokens);
    hide FreshRow, StoredFresh, Tokens;
    CreatedBy(FreshRow(site, identity, u, known), FreshRow(site, identity, u, id),
              StoredFresh(site, identity, u, id, tokens));
  }

  lemma {:induction false} StoredAgrees(site: Site, identity: Urn, u: Urn, id: Text, tokens: Value)
    requires NodeOk(site, u) && Tokens(tokens).Some?
    ensures InputsAgree(FreshRow(site, identity, u, id).inputs, StoredFresh(site, identity, u, id, tokens).inputs)
  {
    hide InputsAgree, RecordInputs, Tokens, RepositoryInputs, IdentityInputs, ProviderInputs;
    InputsAgreeSelf(FreshRow(site, identity, u, id).inputs);
    if site.graph[u].kind == Dns {
      RecordAgrees(site, Tokens(tokens).value[site.graph[u].index]);
    }
  }

  lemma {:induction false} KeepsItself(site: Site, row: Row)
    ensures Keeps(site, WithId(row), row)
  {
    hide SemanticInputs, StableOutputs;
  }

  lemma {:induction false} StoredCarried(site: Site, identity: Urn, prior: Rows, a: Answers, u: Urn)
    requires Installed(site, identity) && Bootstrapped(site, prior) && AnswersOk(a) && u in site.graph
    ensures Carried(site, ExpectedOperation(site, u, Find(prior, u)),
                    StartRow(site, identity, prior, u), StoredRow(site, identity, prior, a, u))
  {
    hide Created, Keeps, InputsAgree, StateOk, FreshRow, StoredFresh, HardenedRow, SameMembers, LegacyInputs;
    hide WellFormed;
    if u !in prior {
      StoredCreated(site, identity, u, ProviderId(site, prior), LearnedId(site, prior, a), a.tokens);
    } else if Hardened(site, prior, u) {
      InputsAgreeSelf(HardenedRow(site, prior[u]).inputs);
    } else {
      KeepsItself(site, prior[u]);
    }
  }

  function StoredRows(site: Site, identity: Urn, prior: Rows, a: Answers): Rows
    requires Installed(site, identity) && AnswersOk(a)
  {
    map u | u in site.graph :: StoredRow(site, identity, prior, a, u)
  }

  lemma {:induction false} StoredReplays(site: Site, identity: Urn, prior: Rows, a: Answers)
    requires Installed(site, identity) && Bootstrapped(site, prior) && AnswersOk(a)
    ensures Replays(site, prior, StartRows(site, identity, prior), StoredRows(site, identity, prior, a))
  {
    hide Carried, StartRow, StoredRow, NodeOk, WellFormed, Bootstrapped;
    forall u | u in site.graph
      ensures Carried(site, ExpectedOperation(site, u, Find(prior, u)),
                      StartRow(site, identity, prior, u), StoredRow(site, identity, prior, a, u))
    {
      StoredCarried(site, identity, prior, a, u);
    }
  }

  // ---------------------------------------------------------------- the rows it leaves

  /** What the checks on the new list need to know of one of its rows. */
  predicate Settled(site: Site, u: Urn, row: Row, id: Text) {
    && u in site.graph && row.urn == u && row.kind == site.graph[u].kind
    && StateOk(site, row, false, false, false) && ReferencesOk(site, row, site.graph.Keys, id)
    && (u == site.provider ==> IdOf(row) == id && row.id.Some? && !SameMembers(row.inputs, LegacyInputs(site)))
  }

  lemma {:induction false} StoredPlace(site: Site, identity: Urn, u: Urn, id: Text, tokens: Value)
    requires NodeOk(site, u) && Tokens(tokens).Some?
    ensures var was, now := FreshRow(site, identity, u, id), StoredFresh(site, identity, u, id, tokens);
      && now == was.(id := now.id, inputs := now.inputs, outputs := now.outputs)
      && was.inputs.Keys <= now.inputs.Keys && (was.kind != Dns ==> now.inputs == was.inputs)
      && (was.kind.Provider? ==> now.id == Some(id))
  {
    hide RecordInputs, RepositoryInputs, IdentityInputs, ProviderInputs;
    if site.graph[u].kind == Dns {
      RecordInputsFit(site, Some(Tokens(tokens).value[site.graph[u].index]));
    }
  }

  /** `now` is settled if it is `was` with another id and outputs and perhaps more inputs. */
  lemma {:induction false} SettledFrom(site: Site, u: Urn, was: Row, now: Row, id: Text)
    requires ReferencesOk(site, was, site.graph.Keys, id) && was.inputs.Keys <= now.inputs.Keys
    requires now == was.(id := now.id, inputs := now.inputs, outputs := now.outputs)
    requires now.urn == u && StateOk(site, now, false, false, false)
    requires u == site.provider ==>
      IdOf(now) == id && now.id.Some? && !SameMembers(now.inputs, LegacyInputs(site))
    ensures Settled(site, u, now, id)
  {
    hide StateOk, Closed, SameMembers, LegacyInputs;
    KindOf(site, now);
    ClosedWith(was, now, site.graph.Keys, site.graph.Keys);
  }

  lemma {:induction false} StoredSettled(site: Site, identity: Urn, u: Urn, id: Text, tokens: Value)
    requires Installed(site, identity) && u in site.graph && Tokens(tokens).Some?
    ensures NodeOk(site, u) && Settled(site, u, StoredFresh(site, identity, u, id, tokens), id)
  {
    assert NodeOk(site, u);
    hide StateOk, StoredFresh, FreshRow, ReferencesOk, Settled, SameMembers, LegacyInputs, WellFormed, NodeOk, NodesOf;
    hide Tokens;
    StoredStateOk(site, identity, u, id, tokens);
    StoredPlace(site, identity, u, id, tokens);
    FreshReferences(site, identity, u, id);
    FreshKind(site, identity, u, id);
    if u == site.provider {
      ProviderPackage(site);
      FreshProviderInputs(site, identity, id);
    }
    SettledFrom(site, u, FreshRow(site, identity, u, id), StoredFresh(site, identity, u, id, tokens), id);
  }

  lemma {:induction false} FreshProviderInputs(site: Site, identity: Urn, id: Text)
    requires NodeOk(site, site.provider) && WellFormed(site)
    ensures !SameMembers(FreshRow(site, identity, site.provider, id).inputs, LegacyInputs(site))
  {
    var inputs := FreshRow(site, identity, site.provider, id).inputs;
    assert ACCOUNTS in inputs;
    hide SameMembers, LegacyInputs;
    NotLegacy(site, inputs);
  }

  lemma {:induction false} HardenedSettled(site: Site, row: Row, id: Text)
    requires WellFormed(site) && row.urn == site.provider && StateOk(site, row, false, true, false)
    requires ReferencesOk(site, row, site.graph.Keys, id) && IdOf(row) == id
    ensures Settled(site, row.urn, HardenedRow(site, row), id)
  {
    assert ACCOUNTS in HardenedRow(site, row).inputs;
    hide StateOk, HardenedRow, SameMembers, LegacyInputs, WellFormed, ReferencesOk, Settled;
    HardenedStateOk(site, row);
    HardenedPlace(site, row);
    NotLegacy(site, HardenedRow(site, row).inputs);
    SettledFrom(site, row.urn, row, HardenedRow(site, row), id);
  }

  /** A bootstrap row's references, seen from the whole graph and whatever the provider's id. */
  lemma {:induction false} BootstrapReferences(site: Site, identity: Urn, prior: Rows, u: Urn, id: Text)
    requires Installed(site, identity) && Bootstrapped(site, prior) && u in prior
    requires AllReferencesOk(site, prior, ProviderId(site, prior))
    ensures ReferencesOk(site, prior[u], site.graph.Keys, id) && !Linked(prior[u].kind)
  {
    hide StateOk, Hardened, WellFormed, FreshRow, Closed, HardenedRow;
    StartPlace(site, identity, prior, u);
    HardenedPlace(site, prior[u]);
    assert ReferencesOk(site, prior[u], prior.Keys, ProviderId(site, prior));
    ClosedWith(prior[u], prior[u], prior.Keys, site.graph.Keys);
  }

  lemma {:induction false} KeptSettled(site: Site, prior: Rows, u: Urn, id: Text)
    requires u in prior && prior[u].urn == u && StateOk(site, prior[u], false, false, false)
    requires ReferencesOk(site, prior[u], site.graph.Keys, id) && !Hardened(site, prior, u)
    requires u == site.provider ==> IdOf(prior[u]) == id && prior[u].id.Some?
    ensures Settled(site, u, prior[u], id)
  {
    hide StateOk, ReferencesOk, SameMembers, LegacyInputs, Settled;
    SettledFrom(site, u, prior[u], prior[u], id);
  }

  lemma {:induction false} StoredRowSettled(site: Site, identity: Urn, prior: Rows, a: Answers, u: Urn)
    requires Installed(site, identity) && Bootstrapped(site, prior) && AnswersOk(a) && u in site.graph
    requires AllReferencesOk(site, prior, ProviderId(site, prior)) && ProviderIdKnown(site, prior)
    ensures Settled(site, u, StoredRow(site, identity, prior, a, u), LearnedId(site, prior, a))
  {
    var id := LearnedId(site, prior, a);
    hide StateOk, StoredFresh, ReferencesOk, Settled, HardenedRow, Tokens, AllReferencesOk;
    if u !in prior {
      StoredSettled(site, identity, u, id, a.tokens);
    } else {
      BootstrapReferences(site, identity, prior, u, id);
      if Hardened(site, prior, u) {
        HardenedSettled(site, prior[u], id);
      } else {
        KeptSettled(site, prior, u, id);
      }
    }
  }

  lemma {:induction false} StoredTokens(site: Site, identity: Urn, id: Text, tokens: Value)
    requires NodeOk(site, identity) && site.graph[identity].kind == Ses && Tokens(tokens).Some? && site.domain != []
    ensures var row, t := StoredFresh(site, identity, identity, id, tokens), Tokens(tokens).value;
      row.urn == identity && IdentityTokens(row) == Some([Some(t[0]), Some(t[1]), Some(t[2])])
  {
    hide Tokens, FreshRow;
    FreshKind(site, identity, identity, id);
    IdentityNames(site);
  }

  lemma {:induction false} StoredToken(site: Site, identity: Urn, u: Urn, id: Text, tokens: Value)
    requires NodeOk(site, u) && site.graph[u].kind == Dns && Tokens(tokens).Some?
    ensures var row, token := StoredFresh(site, identity, u, id, tokens), Tokens(tokens).value[site.graph[u].index];
      && row.urn == u && row.dependencies == [identity] && NAME != RECORDS
      && row.propertyDependencies == map[NAME := [identity], RECORDS := [identity]]
      && MailCheckedInputs(site, Dns, row.inputs) == Some(RecordInputs(site, Some(token)))
  {
    hide Tokens, FreshRow, MailCheckedInputs, RecordInputs;
    FreshKind(site, identity, u, id);
    RecordInputsFit(site, Some(Tokens(tokens).value[site.graph[u].index]));
  }

  lemma {:induction false} BoundBy(site: Site, identity: Row, record: Row, t: seq<Text>)
    requires |t| == 3 && IdentityTokens(identity) == Some([Some(t[0]), Some(t[1]), Some(t[2])])
    requires record.urn in site.graph && site.graph[record.urn].index < 3
    requires MailCheckedInputs(site, Dns, record.inputs)
      == Some(RecordInputs(site, Some(t[site.graph[record.urn].index])))
    requires record.dependencies == [identity.urn] && NAME != RECORDS
    requires record.propertyDependencies == map[NAME := [identity.urn], RECORDS := [identity.urn]]
    ensures RecordBound(site, identity, record)
  {
    hide MailCheckedInputs, RecordInputs, IdentityTokens;
  }

  lemma {:induction false} StoredBound(site: Site, identity: Urn, u: Urn, id: Text, tokens: Value)
    requires Installed(site, identity) && u in site.graph && site.graph[u].kind == Dns && Tokens(tokens).Some?
    ensures identity in site.graph
    ensures RecordBound(site, StoredFresh(site, identity, identity, id, tokens),
                        StoredFresh(site, identity, u, id, tokens))
  {
    assert NodeOk(site, u);
    assert identity in NodesOf(site, Ses);
    assert NodeOk(site, identity);
    StoredTokens(site, identity, id, tokens);
    StoredToken(site, identity, u, id, tokens);
    hide StoredFresh, FreshRow, RecordBound, Tokens, MailCheckedInputs, RecordInputs, IdentityTokens;
    BoundBy(site, StoredFresh(site, identity, identity, id, tokens), StoredFresh(site, identity, u, id, tokens),
            Tokens(tokens).value);
  }

  lemma {:induction false} StoredBindings(site: Site, identity: Urn, prior: Rows, a: Answers)
    requires Installed(site, identity) && Bootstrapped(site, prior) && AnswersOk(a)
    requires forall u :: u in site.graph ==>
      Settled(site, u, StoredRows(site, identity, prior, a)[u], LearnedId(site, prior, a))
    ensures BindingsOk(site, StoredRows(site, identity, prior, a))
  {
    hide StoredFresh, BindingsOk, RecordBound, WellFormed, NodeOk, StateOk, ReferencesOk, SameMembers, LegacyInputs;
    hide HardenedRow, Hardened, Tokens;
    var rows := StoredRows(site, identity, prior, a);
    assert identity in NodesOf(site, Ses);
    assert identity !in prior;
    forall u | u in rows && site.graph[u].kind == Dns ensures RecordBound(site, rows[identity], rows[u]) {
      StoredBound(site, identity, u, LearnedId(site, prior, a), a.tokens);
    }
    assert forall u :: u in rows ==> Settled(site, u, rows[u], LearnedId(site, prior, a));
    BindingsFrom(site, identity, rows);
  }

  lemma {:induction false} RowsAppend(front: seq<Row>, row: Row)
    requires DistinctUrns(front) && row.urn !in Urns(front)
    ensures var rows := front + [row];
      DistinctUrns(rows) && Urns(rows) == Urns(front) + {row.urn}
      && Inventory(rows) == Inventory(front)[row.urn := row]
  {
    var rows := front + [row];
    assert rows[..|rows| - 1] == front;
    assert rows[|front|] == row && forall i :: 0 <= i < |front| ==> rows[i] == front[i];
    assert forall i :: 0 <= i < |front| ==> front[i].urn in Urns(front);
  }

  /** The rows of a map, in some order. */
  lemma {:induction false} ListRows(after: Rows) returns (rows: seq<Row>)
    requires forall u :: u in after ==> after[u].urn == u
    ensures DistinctUrns(rows) && Urns(rows) == after.Keys && Inventory(rows) == after && |rows| == |after.Keys|
  {
    hide DistinctUrns, Urns, Inventory;
    if after.Keys == {} {
      rows := [];
      NoRowsListed();
    } else {
      var u :| u in after.Keys;
      var rest := after - {u};
      var front := ListRows(rest);
      rows := front + [after[u]];
      RowsAppend(front, after[u]);
      assert rest[u := after[u]] == after && rest.Keys == after.Keys - {u};
    }
  }

  lemma {:induction false} NoRowsListed()
    ensures DistinctUrns([]) && Urns([]) == {} && Inventory([]) == map[]
  {
  }

  /** A settled list of the whole graph's rows is acceptable. */
  lemma {:induction false} SettledPrior(site: Site, rows: seq<Row>, id: Text)
    requires WellFormed(site) && DistinctUrns(rows) && Urns(rows) == site.graph.Keys && |rows| == |site.graph.Keys|
    requires forall i :: 0 <= i < |rows| ==> Settled(site, rows[i].urn, rows[i], id)
    requires BindingsOk(site, Inventory(rows)) && id != [] && id != UNKNOWN
    ensures PriorOk(site, rows)
  {
    hide BindingsOk, StateOk, ReferencesOk, SameMembers, LegacyInputs;
    assert !IsLegacy(site, rows) by {
      forall i | 0 <= i < |rows| ensures !LegacyProvider(site, rows[i]) {
        assert Settled(site, rows[i].urn, rows[i], id);
      }
    }
    var prior := Inventory(rows);
    forall u | u in prior ensures Settled(site, u, prior[u], id) {
      var i :| 0 <= i < |rows| && rows[i].urn == u;
    }
    ProviderPackage(site);
    assert AllReferencesOk(site, prior, id);
  }

  lemma {:induction false} StepBy(
    site: Site, requireRefresh: bool, preview: Preview, saved: SavedPlan, rows: seq<Row>, after: Rows)
    requires DistinctUrns(rows) && GoalsOk(site, saved.plans, Inventory(rows))
    requires Replays(site, Inventory(rows), DesiredRows(site, saved.plans, Inventory(rows)), after)
    requires Accepts(site, preview, saved, rows, requireRefresh)
    ensures ReplayStep(site, requireRefresh, Inventory(rows), after)
  {
    hide Accepts, Replays, GoalsOk, DistinctUrns, Inventory;
  }

  /**
   On every acceptable bootstrap list some plan and preview are accepted, and the plan's replay leaves the whole
   graph, acceptable again, whatever id the provider gets and whatever tokens the mail identity.
   */
  lemma {:induction false} StartPossible(
    site: Site, identity: Urn, rows: seq<Row>, requireRefresh: bool, a: Answers) returns (rows': seq<Row>)
    requires Installed(site, identity) && PriorOk(site, rows) && Urns(rows) <= site.baseline && AnswersOk(a)
    ensures PriorOk(site, rows') && Urns(rows') == site.graph.Keys
    ensures ReplayStep(site, requireRefresh, Inventory(rows), Inventory(rows'))
  {
    hide PriorOk, Accepts, Replays, Bootstrapped, Tokens, BindingsOk, AllReferencesOk, ProviderIdKnown, NodeOk, GoalsOk;
    hide WellFormed, StartPreview, StartPlans, StartRows, StoredRows, Unique, NodesOf, InGraph, ReplayStep, Inventory;
    hide DistinctUrns, Urns, ProviderId, AnswersOk;
    PriorParts(site, rows);
    PriorProvider(site, rows);
    var prior := Inventory(rows);
    var order := SomeOrder(site.graph.Keys - prior.Keys - {site.provider});
    StartAccepted(site, identity, rows, order, requireRefresh);
    StartGoals(site, identity, prior);
    StoredReplays(site, identity, prior, a);
    rows' := StoredList(site, identity, prior, a);
    StepBy(site, requireRefresh, StartPreview(site, identity, rows, order),
           SavedPlan(true, StartPlans(site, identity, prior)), rows, Inventory(rows'));
  }

  lemma {:induction false} PriorProvider(site: Site, rows: seq<Row>)
    requires PriorOk(site, rows)
    ensures DistinctUrns(rows) && ProviderIdKnown(site, Inventory(rows))
  {
  }

  lemma {:induction false} StoredList(site: Site, identity: Urn, prior: Rows, a: Answers) returns (rows: seq<Row>)
    requires Installed(site, identity) && Bootstrapped(site, prior) && AnswersOk(a)
    requires AllReferencesOk(site, prior, ProviderId(site, prior)) && ProviderIdKnown(site, prior)
    ensures PriorOk(site, rows) && Urns(rows) == site.graph.Keys
    ensures DistinctUrns(rows) && Inventory(rows) == StoredRows(site, identity, prior, a)
  {
    hide PriorOk, Bootstrapped, AllReferencesOk, BindingsOk, StateOk, ReferencesOk, NodeOk, WellFormed, Tokens;
    hide StoredRow, SameMembers, LegacyInputs;
    var after, id := StoredRows(site, identity, prior, a), LearnedId(site, prior, a);
    forall u | u in site.graph ensures Settled(site, u, after[u], id) {
      StoredRowSettled(site, identity, prior, a, u);
    }
    StoredBindings(site, identity, prior, a);
    rows := ListRows(after);
    SettledPrior(site, rows, id);
  }

  // ---------------------------------------------------------------- going on

  /** Demanding a refresh only makes the gate stricter. */
  lemma {:induction false} RefreshIsStricter(site: Site, preview: Preview, saved: SavedPlan, rows: seq<Row>)
    requires WellFormed(site) && Accepts(site, preview, saved, rows, true)
    ensures Accepts(site, preview, saved, rows, false)
  {
    hide PriorOk, GoalsOk, DesiredOk, Orderly, Refreshes, StepUrns;
    PriorInGraph(site, rows);
  }

  lemma {:induction false} UnchangedReplays(site: Site, prior: Rows)
    requires forall u :: !Hardened(site, prior, u)
    ensures Replays(site, prior, WithIds(prior), prior)
  {
    hide Keeps, Hardened;
    forall u | u in prior
      ensures Carried(site, ExpectedOperation(site, u, Find(prior, u)), WithId(prior[u]), prior[u])
    {
      assert !Hardened(site, prior, u);
      NotHardened(site, prior, u);
      KeepsItself(site, prior[u]);
    }
  }

  lemma {:induction false} NotHardened(site: Site, prior: Rows, u: Urn)
    requires u in prior && !Hardened(site, prior, u)
    ensures ExpectedOperation(site, u, Find(prior, u)) == Same
  {
  }

  /** On every acceptable list, whole or not, there is an accepted plan whose replay leaves one again. */
  lemma {:induction false} StepPossible(
    site: Site, identity: Urn, rows: seq<Row>, requireRefresh: bool, a: Answers) returns (rows': seq<Row>)
    requires Installed(site, identity) && PriorOk(site, rows) && AnswersOk(a)
    ensures PriorOk(site, rows') && Urns(rows') == site.graph.Keys
    ensures ReplayStep(site, requireRefresh, Inventory(rows), Inventory(rows'))
  {
    hide PriorOk, Accepts, Replays, Bootstrapped, NodeOk, WellFormed, UnchangedPreview, UnchangedPlan, StateOk;
    hide Hardened, GoalsOk, NodesOf, AnswersOk, ReplayStep;
    WholeOrBootstrap(site, rows);
    if Urns(rows) == site.graph.Keys {
      var prior := Inventory(rows);
      CompleteNotLegacy(site, rows);
      UnchangedPlanAccepted(site, rows);
      UnchangedGoals(site, prior);
      UnchangedReplays(site, prior);
      var preview, saved := UnchangedPreview(site, rows), SavedPlan(true, UnchangedPlans(site, prior));
      if !requireRefresh {
        RefreshIsStricter(site, preview, saved, rows);
      }
      StepBy(site, requireRefresh, preview, saved, rows, prior);
      rows' := rows;
    } else {
      rows' := StartPossible(site, identity, rows, requireRefresh, a);
    }
  }

  lemma {:induction false} WholeOrBootstrap(site: Site, rows: seq<Row>)
    requires PriorOk(site, rows)
    ensures DistinctUrns(rows) && (Urns(rows) <= site.baseline || Urns(rows) == site.graph.Keys)
    ensures Inventory(rows).Keys == Urns(rows)
  {
  }

  lemma {:induction false} OneState(site: Site, requireRefresh: bool, state: Rows)
    ensures History(site, requireRefresh, [state])
  {
    hide ReplayStep;
  }

  lemma {:induction false} HistoryAppend(site: Site, requireRefresh: bool, front: seq<Rows>, next: Rows)
    requires front != [] && History(site, requireRefresh, front)
    requires ReplayStep(site, requireRefresh, front[|front| - 1], next)
    ensures History(site, requireRefresh, front + [next])
  {
    hide ReplayStep;
    var states := front + [next];
    forall i | 0 <= i < |states| - 1 ensures ReplayStep(site, requireRefresh, states[i], states[i + 1]) {
      if i < |front| - 1 {
        assert ReplayStep(site, requireRefresh, front[i], front[i + 1]);
      }
    }
  }

  /** From every acceptable list a history of any length starts; its states stay acceptable. */
  lemma {:induction false} HistoryPossible(
    site: Site, identity: Urn, rows: seq<Row>, requireRefresh: bool, a: Answers, n: nat)
    returns (states: seq<Rows>, last: seq<Row>)
    requires Installed(site, identity) && PriorOk(site, rows) && AnswersOk(a)
    ensures |states| == n + 1 && DistinctUrns(rows) && states[0] == Inventory(rows)
    ensures History(site, requireRefresh, states)
    ensures PriorOk(site, last) && DistinctUrns(last) && states[n] == Inventory(last)
    ensures n > 0 ==> Urns(last) == site.graph.Keys
  {
    hide PriorOk, Installed, AnswersOk, ReplayStep, History, Inventory, Urns, DistinctUrns;
    if n == 0 {
      WholeOrBootstrap(site, rows);
      states, last := [Inventory(rows)], rows;
      OneState(site, requireRefresh, Inventory(rows));
    } else {
      var front, middle := HistoryPossible(site, identity, rows, requireRefresh, a, n - 1);
      last := StepPossible(site, identity, middle, requireRefresh, a);
      WholeOrBootstrap(site, last);
      states := front + [Inventory(last)];
      HistoryAppend(site, requireRefresh, front, Inventory(last));
    }
  }

  /** A stack that has nothing yet is such a list. */
  lemma {:induction false} EmptyPrior(site: Site)
    requires WellFormed(site)
    ensures PriorOk(site, [])
  {
  }
}
