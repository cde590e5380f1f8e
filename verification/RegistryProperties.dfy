/**
 More of what acceptance by the registry gate means: the exact shape of an accepted preview, the tokens
 behind the mail records, and that the engine's own unchanged plan is accepted.
 */
module RegistryProperties {
  import opened Options
  import opened Texts
  import opened Json
  import opened RegistryRows
  import opened RegistryPlan
  import opened RegistryHistory

  // ---------------------------------------------------------------- the shape of a preview

  /** The steps are about exactly the given resources, each once. */
  predicate Enumerates(steps: seq<Step>, urns: set<Urn>) {
    DistinctSteps(steps) && StepUrns(steps) == urns
  }

  lemma {:induction false} EnumerationLength(steps: seq<Step>)
    requires DistinctSteps(steps)
    ensures |StepUrns(steps)| == |steps|
  {
    if steps != [] {
      var front, last := steps[..|steps| - 1], steps[|steps| - 1];
      EnumerationLength(front);
      assert steps == front + [last];
      DistinctAppend(front, last);
    }
  }

  /** Each observed resource but the provider as a refresh, then each of the graph as `same` or `create`, once each. */
  predicate RefreshedThenShown(site: Site, steps: seq<Step>, prior: Rows) {
    var n := |prior.Keys - {site.provider}|;
    && |steps| == n + |site.graph.Keys - {site.provider}|
    && Enumerates(steps[..n], prior.Keys - {site.provider})
    && Enumerates(steps[n..], site.graph.Keys - {site.provider})
    && (forall i :: 0 <= i < n ==> steps[i].op == Refresh)
    && (forall i :: n <= i < |steps| ==> steps[i].op == (if steps[i].urn in prior then Same else Create))
  }

  /**
   With a refresh required, an accepted preview lists every observed resource but the provider once as a
   refresh, then every resource of the graph but the provider once as `same` or `create`, and nothing else.
   */
  lemma {:induction false} RequiredRefreshShape(site: Site, preview: Preview, saved: SavedPlan, rows: seq<Row>)
    requires Accepts(site, preview, saved, rows, true)
    ensures RefreshedThenShown(site, preview.steps, Inventory(rows))
  {
    hide PriorOk, GoalsOk, DesiredOk, DesiredRows, PreviewOk, Inventory, Enumerates;
    PreviewShape(site, preview.steps, Inventory(rows), DesiredRows(site, saved.plans, Inventory(rows)));
  }

  lemma {:induction false} PreviewParts(site: Site, steps: seq<Step>, prior: Rows, desired: Rows)
    requires PreviewOk(site, steps, prior, desired, true)
    ensures var n := Refreshes(steps);
      && n <= |steps| && (forall i :: 0 <= i < n ==> steps[i].op == Refresh)
      && Enumerates(steps[..n], prior.Keys - {site.provider})
      && Enumerates(steps[n..], site.graph.Keys - {site.provider})
  {
    hide RefreshStepOk, PreviewStepOk, DistinctSteps, StepUrns;
  }

  lemma {:induction false} PreviewOperations(site: Site, steps: seq<Step>, prior: Rows, desired: Rows)
    requires PreviewOk(site, steps, prior, desired, true)
    ensures forall i :: Refreshes(steps) <= i < |steps| ==>
      steps[i].op == (if steps[i].urn in prior then Same else Create)
  {
    hide PreviewOk, Refreshes;
    forall i | Refreshes(steps) <= i < |steps|
      ensures steps[i].op == (if steps[i].urn in prior then Same else Create)
    {
      StepOperation(site, steps, prior, desired, true, i);
    }
  }

  lemma {:induction false} PreviewShape(site: Site, steps: seq<Step>, prior: Rows, desired: Rows)
    requires PreviewOk(site, steps, prior, desired, true)
    ensures RefreshedThenShown(site, steps, prior)
  {
    hide PreviewOk, Refreshes, Enumerates;
    var n := Refreshes(steps);
    PreviewParts(site, steps, prior, desired);
    PreviewOperations(site, steps, prior, desired);
    EnumerationSize(steps[..n], prior.Keys - {site.provider});
    EnumerationSize(steps[n..], site.graph.Keys - {site.provider});
  }

  lemma {:induction false} EnumerationSize(steps: seq<Step>, urns: set<Urn>)
    requires Enumerates(steps, urns)
    ensures |steps| == |urns|
  {
    EnumerationLength(steps);
  }

  // ---------------------------------------------------------------- placement

  /** The row is the one the graph has at this URN, linked to the one AWS provider if its kind needs it. */
  predicate PlacedRow(site: Site, u: Urn, row: Row) {
    && u in site.graph && row.urn == u
    && row.kind == site.graph[u].kind && row.parent == site.graph[u].parent && row.custom == site.graph[u].custom
    && (if row.kind in {Ecr, Ses, Dns} then row.provider.ProvidedBy? && row.provider.urn == site.provider
        else row.provider.NoProvider?)
  }

  lemma {:induction false} DesiredPlaced(
    site: Site, u: Urn, plan: ResourcePlan, prior: Option<Row>, urns: set<Urn>, id: Text)
    requires Desired(site, u, plan, prior).Some?
    requires ReferencesOk(site, Desired(site, u, plan, prior).value, urns, id)
    ensures PlacedRow(site, u, Desired(site, u, plan, prior).value)
  {
    hide GoalValues, InputsOutputsOk, Closed;
  }

  lemma {:induction false} SameOwnerPlaced(site: Site, u: Urn, goal: Row, now: Row)
    requires PlacedRow(site, u, goal) && OwnedAlike(goal, now)
    ensures PlacedRow(site, u, now)
  {
  }

  lemma {:induction false} CarriedOwner(site: Site, op: Operation, goal: Row, now: Row)
    requires Carried(site, op, goal, now)
    ensures OwnedAlike(goal, now)
  {
    hide SemanticInputs, StableOutputs, InputsAgree;
  }

  /** After an accepted plan and its replay every resource of the graph is in its place, under its own provider. */
  lemma {:induction false} ReplayPlaces(
    site: Site, preview: Preview, saved: SavedPlan, rows: seq<Row>, requireRefresh: bool, after: Rows, u: Urn)
    requires WellFormed(site) && Accepts(site, preview, saved, rows, requireRefresh)
    requires Replays(site, Inventory(rows), DesiredRows(site, saved.plans, Inventory(rows)), after) && u in site.graph
    ensures u in after && PlacedRow(site, u, after[u])
  {
    hide PreviewOk, PriorOk, Desired, Carried, OwnedAlike, BindingsOk, PlacedRow, ReferencesOk;
    PriorParts(site, rows);
    var prior := Inventory(rows);
    var desired := DesiredRows(site, saved.plans, prior);
    assert u in saved.plans && u in desired;
    DesiredPlaced(site, u, saved.plans[u], Find(prior, u), desired.Keys, IdOf(desired[site.provider]));
    CarriedOwner(site, ExpectedOperation(site, u, Find(prior, u)), desired[u], after[u]);
    SameOwnerPlaced(site, u, desired[u], after[u]);
  }

  // ---------------------------------------------------------------- what the preview shows

  /** The displayed row names the resource of the goal: all ownership but the id, which may be shown or not. */
  predicate ShowsOwner(shown: Row, goal: Row) {
    Ownership(shown).(id := []) == Ownership(goal).(id := [])
  }

  lemma {:induction false} ShownOwner(shown: Row, goal: Row, now: Row)
    requires ShowsOwner(shown, goal) && OwnedAlike(goal, now)
    ensures OwnedAlike(shown, now) && LinkAgrees(goal.provider, now.provider)
  {
  }

  lemma {:induction false} StepShowsGoal(site: Site, step: Step, prior: Rows, desired: Rows, refreshed: bool)
    requires PreviewStepOk(site, step, prior, desired, refreshed)
    ensures ShowsOwner(step.newState, desired[step.urn]) && step.provider == desired[step.urn].provider
    ensures SameMembers(step.newState.inputs, desired[step.urn].inputs)
    ensures step.urn in prior ==> step.oldState.Some? && Ownership(step.oldState.value) == Ownership(prior[step.urn])
    ensures step.urn !in prior ==> step.oldState.None?
  {
    hide StateOk, SameMembers, SemanticInputs, ShownOutputs, PreviewNew;
    RestoredRow(site, step.newState, Find(prior, step.urn), refreshed);
    var shown := PreviewNew(site, step.newState, Find(prior, step.urn), refreshed).value;
    SameOwnerShown(step.newState, shown.id, shown.outputs);
  }

  lemma {:induction false} SameOwnerShown(row: Row, id: Option<Text>, outputs: Members)
    ensures ShowsOwner(row.(id := id, outputs := outputs), row)
  {
  }

  /** Restoring what the engine leaves out touches only id and outputs. */
  lemma {:induction false} RestoredRow(site: Site, candidate: Row, was: Option<Row>, refreshed: bool)
    requires PreviewNew(site, candidate, was, refreshed).Some?
    ensures var row := PreviewNew(site, candidate, was, refreshed).value;
      row == candidate.(id := row.id, outputs := row.outputs)
  {
    hide StateOk, ShowsOld, IdOf, Ownership, SemanticInputs;
    var row := PreviewNew(site, candidate, was, refreshed).value;
    if refreshed && was.Some? {
      var named := if candidate.id.None? && was.value.custom then candidate.(id := was.value.id) else candidate;
      assert named == candidate.(id := named.id);
      assert row == if named.outputs == map[] then named.(outputs := was.value.outputs) else named;
    } else {
      assert row == candidate;
    }
  }

  lemma {:induction false} StepAccepted(
    site: Site, steps: seq<Step>, prior: Rows, desired: Rows, requireRefresh: bool, k: nat)
    requires PreviewOk(site, steps, prior, desired, requireRefresh) && Refreshes(steps) <= k < |steps|
    ensures PreviewStepOk(site, steps[k], prior, desired, Refreshes(steps) > 0)
  {
    hide PreviewStepOk, RefreshStepOk;
    assert StepCheck(site, prior, desired)(steps[k], Refreshes(steps) > 0);
  }

  lemma {:induction false} CarriedAt(site: Site, prior: Rows, desired: Rows, after: Rows, u: Urn)
    requires Replays(site, prior, desired, after) && u in desired && u != site.provider
    ensures u in after && Carried(site, if u in prior then Same else Create, desired[u], after[u])
  {
    hide Carried;
  }

  /**
   The preview tells what the replay does: each step after the refreshes shows the owner and provider of the row
   the replay leaves, as far as their ids were known, and the inputs of its goal, which the replay carries out;
   and it shows the observed owner of a row that existed.
   */
  lemma {:induction false} PreviewTellsReplay(
    site: Site, preview: Preview, saved: SavedPlan, rows: seq<Row>, requireRefresh: bool, after: Rows, k: nat)
    requires WellFormed(site) && Accepts(site, preview, saved, rows, requireRefresh)
    requires Replays(site, Inventory(rows), DesiredRows(site, saved.plans, Inventory(rows)), after)
    requires Refreshes(preview.steps) <= k < |preview.steps|
    ensures var step, prior := preview.steps[k], Inventory(rows);
      var desired := DesiredRows(site, saved.plans, prior);
      && step.urn in desired && step.urn in after
      && OwnedAlike(step.newState, after[step.urn]) && LinkAgrees(step.provider, after[step.urn].provider)
      && SameMembers(step.newState.inputs, desired[step.urn].inputs)
      && Carried(site, step.op, desired[step.urn], after[step.urn])
      && (step.urn in prior ==> step.oldState.Some? && Ownership(step.oldState.value) == Ownership(prior[step.urn]))
  {
    hide PreviewOk, PreviewStepOk, PriorOk, Desired, Carried, BindingsOk, SameMembers, StateOk, Ownership, Replays;
    hide OwnedAlike, LinkAgrees, AllReferencesOk, ShowsOwner, DistinctUrns, Inventory;
    PriorParts(site, rows);
    var prior := Inventory(rows);
    var desired := DesiredRows(site, saved.plans, prior);
    var step := preview.steps[k];
    StepAccepted(site, preview.steps, prior, desired, requireRefresh, k);
    StepOperation(site, preview.steps, prior, desired, requireRefresh, k);
    StepShowsGoal(site, step, prior, desired, Refreshes(preview.steps) > 0);
    CarriedAt(site, prior, desired, after, step.urn);
    CarriedOwner(site, step.op, desired[step.urn], after[step.urn]);
    ShownOwner(step.newState, desired[step.urn], after[step.urn]);
  }

  // ---------------------------------------------------------------- mail records

  /** The name and value a DKIM record must have are written from its token, so a token has one record. */
  lemma {:induction false} RecordInputsInjective(site: Site, s: Text, t: Text)
    requires SameMembers(RecordInputs(site, Some(s)), RecordInputs(site, Some(t)))
    ensures s == t
  {
    SameMembersPointwise(RecordInputs(site, Some(s)), RecordInputs(site, Some(t)));
    RecordNameAt(site, s);
    RecordNameAt(site, t);
    var suffix := T("._domainkey.") + site.domain;
    assert s + suffix == t + suffix by {
      assert s + suffix == s + T("._domainkey.") + site.domain;
      assert t + suffix == t + T("._domainkey.") + site.domain;
    }
    assert |s| == |t|;
    assert s == (s + suffix)[..|s|] && t == (t + suffix)[..|t|];
  }

  lemma {:induction false} RecordNameAt(site: Site, t: Text)
    ensures var m := RecordInputs(site, Some(t));
      NAME in m && m[NAME] == Str(t + T("._domainkey.") + site.domain)
  {
  }

  /**
   In accepted rows with a live mail identity, the records carry its tokens one to one: record i has the
   i-th token in sorted order, and two records never share a token.
   */
  lemma {:induction false} RecordsCarryTokens(site: Site, rows: Rows, identity: Urn, record: Urn, other: Urn)
    requires BindingsOk(site, rows)
    requires identity in rows && rows[identity].kind == Ses && IdOf(rows[identity]) != []
    requires record in rows && rows[record].kind == Dns && other in rows && rows[other].kind == Dns
    requires rows[record].urn == record && rows[other].urn == other
    requires record in site.graph && other in site.graph && site.graph[record].index != site.graph[other].index
    ensures DKIM in rows[identity].outputs && rows[identity].outputs[DKIM].Obj?
    ensures var tokens := Tokens(Get(rows[identity].outputs[DKIM].members, TOKENS, Null));
      var i, j := site.graph[record].index, site.graph[other].index;
      && tokens.Some? && i < 3 && j < 3
      && CarriesToken(site, rows[record], tokens.value[i]) && CarriesToken(site, rows[other], tokens.value[j])
      && tokens.value[i] != tokens.value[j]
      && !CarriesToken(site, rows[record], tokens.value[j])
  {
    hide RecordInputs, MailCheckedInputs, SameMembers, Tokens, CarriesToken, RecordBound;
    assert identity in OfKind(rows, Ses) && record in OfKind(rows, Dns) && other in OfKind(rows, Dns);
    BoundCarries(site, rows[identity], rows[record], site.graph[record].index);
    BoundCarries(site, rows[identity], rows[other], site.graph[other].index);
    var tokens := Tokens(Get(rows[identity].outputs[DKIM].members, TOKENS, Null)).value;
    var i, j := site.graph[record].index, site.graph[other].index;
    BelowIrreflexive(tokens[i]);
    assert Below(tokens[if i < j then i else j], tokens[if i < j then j else i]);
    if CarriesToken(site, rows[record], tokens[j]) {
      OneToken(site, rows[record], tokens[i], tokens[j]);
    }
  }

  lemma {:induction false} BoundCarries(site: Site, identity: Row, record: Row, i: nat)
    requires RecordBound(site, identity, record) && IdOf(identity) != [] && site.graph[record.urn].index == i
    ensures DKIM in identity.outputs && identity.outputs[DKIM].Obj? && i < 3
    ensures var tokens := Tokens(Get(identity.outputs[DKIM].members, TOKENS, Null));
      tokens.Some? && CarriesToken(site, record, tokens.value[i])
  {
  }

  lemma {:induction false} OneToken(site: Site, record: Row, s: Text, t: Text)
    requires CarriesToken(site, record, s) && CarriesToken(site, record, t)
    ensures s == t
  {
    hide RecordInputs, MailCheckedInputs;
    RecordInputsInjective(site, s, t);
  }

  predicate CarriesToken(site: Site, record: Row, token: Text) {
    var inputs := MailCheckedInputs(site, Dns, record.inputs);
    inputs.Some? && SameMembers(inputs.value, RecordInputs(site, Some(token)))
  }

  // ---------------------------------------------------------------- the unchanged plan

  const NO_CHANGE := Diff(None, None, None)

  /** The plan the engine writes for a row nothing has changed. */
  function UnchangedPlan(site: Site, row: Row): ResourcePlan
    requires row.urn in site.graph
  {
    ResourcePlan(
      Goal(row.kind, site.graph[row.urn].name, row.custom, row.parent, row.provider, row.protect, false,
           NO_CHANGE, NO_CHANGE, row.dependencies, row.propertyDependencies, row.secretOutputs),
      [Same], Some(32))
  }

  function UnchangedPlans(site: Site, prior: Rows): Plans
    requires prior.Keys <= site.graph.Keys && forall u :: u in prior ==> prior[u].urn == u
  {
    map u | u in prior :: UnchangedPlan(site, prior[u])
  }

  function ShowRow(row: Row, op: Operation): Step {
    Step(row.urn, op, row.provider, Some(row), row, false)
  }

  /** One step for every row but the provider's. */
  function ShowRows(rows: seq<Row>, provider: Urn, op: Operation): seq<Step> {
    if rows == [] then []
    else
      var front, last := rows[..|rows| - 1], rows[|rows| - 1];
      ShowRows(front, provider, op) + (if last.urn == provider then [] else [ShowRow(last, op)])
  }

  /** Every step shows one of the rows. */
  lemma {:induction false} ShownFrom(rows: seq<Row>, provider: Urn, op: Operation, i: nat) returns (k: nat)
    requires i < |ShowRows(rows, provider, op)|
    ensures k < |rows| && rows[k].urn != provider && ShowRows(rows, provider, op)[i] == ShowRow(rows[k], op)
  {
    var front := rows[..|rows| - 1];
    if i < |ShowRows(front, provider, op)| {
      k := ShownFrom(front, provider, op, i);
    } else {
      k := |rows| - 1;
    }
  }

  /** The preview of an unchanged stack after a refresh that found nothing. */
  function UnchangedPreview(site: Site, rows: seq<Row>): Preview {
    Preview(ShowRows(rows, site.provider, Refresh) + ShowRows(rows, site.provider, Same), false)
  }

  lemma {:induction false} ShowRowsEnumerate(rows: seq<Row>, provider: Urn, op: Operation)
    requires DistinctUrns(rows)
    ensures Enumerates(ShowRows(rows, provider, op), Urns(rows) - {provider})
  {
    if rows != [] {
      var front, last := rows[..|rows| - 1], rows[|rows| - 1];
      ShowRowsEnumerate(front, provider, op);
      assert rows == front + [last];
      assert Urns(rows) == Urns(front) + {last.urn};
      assert ShowRows(front, provider, op) + [] == ShowRows(front, provider, op);
      if last.urn != provider {
        DistinctAppend(ShowRows(front, provider, op), ShowRow(last, op));
        assert last.urn !in Urns(front);
      }
    }
  }

  /** A row the checkpoint check accepts is also accepted where a preview shows it. */
  lemma {:induction false} StateInPreview(site: Site, row: Row)
    requires StateOk(site, row, false, false, false)
    ensures StateOk(site, row, false, false, true)
  {
    hide MailCheckedInputs, EcrCheckedInputs, Computed, RepositoryInputs, RecordInputs, IdentityInputs, SameMembers;
    hide ProviderInputsOk, LegacyInputs, Pinned, Tokens;
  }

  lemma {:induction false} ShowsItself(site: Site, row: Row)
    requires StateOk(site, row, false, false, false)
    ensures ShowsOld(site, row, row, false) && ShowsOld(site, row, row, true)
  {
    StateInPreview(site, row);
    StateHasSemanticInputs(site, row);
  }

  lemma {:induction false} StateHasSemanticInputs(site: Site, row: Row)
    requires StateOk(site, row, false, false, false)
    ensures SemanticInputs(site, row.kind, row.inputs).Some?
  {
  }

  /** Writing out an absent id changes nothing the checks look at. */
  function WithId(row: Row): Row {
    row.(id := Some(IdOf(row)))
  }

  lemma {:induction false} StateWithId(site: Site, row: Row)
    requires StateOk(site, row, false, false, false)
    ensures StateOk(site, WithId(row), false, false, false)
  {
    hide MailCheckedInputs, EcrCheckedInputs, IdentityOutput, DkimOk, Computed, RepositoryInputs;
    hide RecordInputs, IdentityInputs, SameMembers, LegacyInputs, ProviderInputsOk;
    if row.id.Some? {
      assert WithId(row) == row;
    }
  }

  lemma {:induction false} UnchangedDesired(site: Site, row: Row)
    requires StateOk(site, row, false, false, false)
    requires row.urn == site.provider ==> !SameMembers(row.inputs, LegacyInputs(site))
    ensures Desired(site, row.urn, UnchangedPlan(site, row), Some(row)) == Some(WithId(row))
  {
    EmptyDiffApplies(NO_CHANGE, row.inputs);
    EmptyDiffApplies(NO_CHANGE, row.outputs);
    StateWithId(site, row);
    hide StateOk, LegacyInputs, ApplyDiff, SemanticInputs;
    assert !SameDiff(NO_CHANGE, RecheckDiff(row.kind));
  }

  /** The rows the unchanged plan describes. */
  function WithIds(prior: Rows): Rows {
    map u | u in prior :: WithId(prior[u])
  }

  lemma {:induction false} UnchangedGoals(site: Site, prior: Rows)
    requires prior.Keys <= site.graph.Keys
    requires forall u :: u in prior ==> prior[u].urn == u && StateOk(site, prior[u], false, false, false)
    requires forall u :: !Hardened(site, prior, u)
    ensures GoalsOk(site, UnchangedPlans(site, prior), prior)
    ensures DesiredRows(site, UnchangedPlans(site, prior), prior) == WithIds(prior)
  {
    hide Desired, StateOk, SameMembers, LegacyInputs;
    var plans := UnchangedPlans(site, prior);
    forall u | u in prior ensures Desired(site, u, plans[u], Find(prior, u)) == Some(WithId(prior[u])) {
      assert !Hardened(site, prior, u);
      UnchangedDesired(site, prior[u]);
    }
    assert DesiredRows(site, plans, prior).Keys == prior.Keys;
  }

  lemma {:induction false} BindingsWithIds(site: Site, prior: Rows)
    requires BindingsOk(site, prior)
    ensures BindingsOk(site, WithIds(prior))
  {
    var desired := WithIds(prior);
    assert OfKind(desired, Ses) == OfKind(prior, Ses) && OfKind(desired, Dns) == OfKind(prior, Dns);
    hide RecordBound;
    forall i, u | i in OfKind(desired, Ses) && u in OfKind(desired, Dns)
      ensures RecordBound(site, desired[i], desired[u])
    {
      BoundWithIds(site, prior[i], prior[u]);
    }
  }

  lemma {:induction false} BoundWithIds(site: Site, identity: Row, record: Row)
    requires RecordBound(site, identity, record)
    ensures RecordBound(site, WithId(identity), WithId(record))
  {
  }

  lemma {:induction false} ReferencesWithIds(site: Site, prior: Rows, id: Text)
    requires AllReferencesOk(site, prior, id)
    ensures AllReferencesOk(site, WithIds(prior), id)
  {
  }

  /** Each step of the unchanged preview is acceptable. */
  lemma {:induction false} UnchangedStepOk(site: Site, prior: Rows, row: Row)
    requires row.urn in prior && prior[row.urn] == row && row.urn != site.provider && row.urn in site.graph
    requires StateOk(site, row, false, false, false)
    ensures RefreshStepOk(site, ShowRow(row, Refresh), prior)
    ensures PreviewStepOk(site, ShowRow(row, Same), prior, WithIds(prior), true)
  {
    hide StateOk, SemanticInputs, ShownOutputs, SameMembers, ShowsOld;
    ShowsItself(site, row);
    StateInPreview(site, row);
    SameSelf(row.inputs);
  }

  lemma {:induction false} SameSelf(m: Members)
    ensures SameMembers(m, m)
  {
  }

  lemma {:induction false} RefreshPrefix(a: seq<Step>, b: seq<Step>)
    requires forall i :: 0 <= i < |a| ==> a[i].op == Refresh
    requires b != [] ==> b[0].op != Refresh
    ensures Refreshes(a + b) == |a|
  {
    assert forall i :: 0 <= i < |a| ==> (a + b)[i] == a[i];
    assert b != [] ==> (a + b)[|a|] == b[0];
    assert Refreshes(a + b) >= |a|;
  }

  lemma {:induction false} OrderlyFrom(
    a: seq<Step>, b: seq<Step>, refreshOk: Step -> bool, stepOk: (Step, bool) -> bool)
    requires DistinctSteps(a) && DistinctSteps(b)
    requires forall i :: 0 <= i < |a| ==> a[i].op == Refresh && refreshOk(a[i])
    requires forall i :: 0 <= i < |b| ==> b[i].op != Refresh && stepOk(b[i], a != [])
    ensures Orderly(a + b, refreshOk, stepOk) && Refreshes(a + b) == |a|
  {
    RefreshPrefix(a, b);
    var steps := a + b;
    assert steps[..|a|] == a && steps[|a|..] == b;
    assert forall i :: |a| <= i < |steps| ==> steps[i] == b[i - |a|];
  }

  /** Refreshes of everything observed, then acceptable steps for the whole graph, are an acceptable preview. */
  lemma {:induction false} PreviewFrom(
    site: Site, prior: Rows, desired: Rows, a: seq<Step>, b: seq<Step>, requireRefresh: bool)
    requires Enumerates(a, prior.Keys - {site.provider}) && Enumerates(b, site.graph.Keys - {site.provider})
    requires prior.Keys <= site.graph.Keys
    requires forall i :: 0 <= i < |a| ==> a[i].op == Refresh && RefreshStepOk(site, a[i], prior)
    requires forall i :: 0 <= i < |b| ==>
      b[i].op != Refresh && PreviewStepOk(site, b[i], prior, desired, a != [])
    ensures PreviewOk(site, a + b, prior, desired, requireRefresh)
  {
    hide RefreshStepOk, PreviewStepOk, DistinctSteps, Orderly, Refreshes;
    OrderlyFrom(a, b, RefreshCheck(site, prior), StepCheck(site, prior, desired));
    var steps := a + b;
    assert steps[..|a|] == a && steps[|a|..] == b;
  }

  /** One step of the unchanged preview is acceptable. */
  lemma {:induction false} ShownStepOk(site: Site, rows: seq<Row>, op: Operation, step: Step, i: nat)
    requires DistinctUrns(rows) && Urns(rows) == site.graph.Keys
    requires forall i :: 0 <= i < |rows| ==> StateOk(site, rows[i], false, false, false)
    requires i < |ShowRows(rows, site.provider, op)| && step == ShowRows(rows, site.provider, op)[i]
    ensures step.op == op
    ensures op == Refresh ==> RefreshStepOk(site, step, Inventory(rows))
    ensures op == Same ==> PreviewStepOk(site, step, Inventory(rows), WithIds(Inventory(rows)), true)
  {
    hide StateOk, RefreshStepOk, PreviewStepOk, ShowRows, WithIds;
    var j := ShownFrom(rows, site.provider, op, i);
    assert rows[j].urn in Urns(rows);
    UnchangedStepOk(site, Inventory(rows), rows[j]);
  }

  lemma {:induction false} UnchangedPreviewOk(site: Site, rows: seq<Row>)
    requires DistinctUrns(rows) && Urns(rows) == site.graph.Keys
    requires forall i :: 0 <= i < |rows| ==> StateOk(site, rows[i], false, false, false)
    requires exists i :: 0 <= i < |rows| && rows[i].urn != site.provider
    ensures PreviewOk(site, UnchangedPreview(site, rows).steps, Inventory(rows), WithIds(Inventory(rows)), true)
  {
    hide StateOk, RefreshStepOk, PreviewStepOk, ShowRows, WithIds, DistinctSteps, Inventory, Orderly, Refreshes;
    var prior := Inventory(rows);
    var a, b := ShowRows(rows, site.provider, Refresh), ShowRows(rows, site.provider, Same);
    ShowRowsEnumerate(rows, site.provider, Refresh);
    ShowRowsEnumerate(rows, site.provider, Same);
    var k :| 0 <= k < |rows| && rows[k].urn != site.provider;
    assert rows[k].urn in Urns(rows) - {site.provider};
    UrnsEmpty(a);
    forall i | 0 <= i < |a| ensures a[i].op == Refresh && RefreshStepOk(site, a[i], prior) {
      ShownStepOk(site, rows, Refresh, a[i], i);
    }
    forall i | 0 <= i < |b| ensures b[i].op == Same && PreviewStepOk(site, b[i], prior, WithIds(prior), true) {
      ShownStepOk(site, rows, Same, b[i], i);
    }
    PreviewFrom(site, prior, WithIds(prior), a, b, true);
  }

  lemma {:induction false} UnchangedDesiredOk(site: Site, prior: Rows)
    requires site.provider in prior && BindingsOk(site, prior)
    requires AllReferencesOk(site, prior, ProviderId(site, prior))
    ensures DesiredOk(site, WithIds(prior))
  {
    hide BindingsOk, AllReferencesOk;
    BindingsWithIds(site, prior);
    ReferencesWithIds(site, prior, ProviderId(site, prior));
    assert IdOf(WithIds(prior)[site.provider]) == ProviderId(site, prior);
  }

  /** The gate's conclusion from its parts. */
  lemma {:induction false} AcceptedBy(
    site: Site, preview: Preview, plans: Plans, rows: seq<Row>, desired: Rows, requireRefresh: bool)
    requires PriorOk(site, rows) && plans.Keys == site.graph.Keys && GoalsOk(site, plans, Inventory(rows))
    requires desired == DesiredRows(site, plans, Inventory(rows)) && DesiredOk(site, desired)
    requires !preview.maybeCorrupt && PreviewOk(site, preview.steps, Inventory(rows), desired, requireRefresh)
    ensures Accepts(site, preview, SavedPlan(true, plans), rows, requireRefresh)
  {
    hide GoalsOk, DesiredOk, PreviewOk, StateOk, BindingsOk, AllReferencesOk, Desired;
  }

  /**
   The gate is not vacuous: on every accepted list of the whole graph's rows, the engine's unchanged plan
   with its full refreshed preview is accepted.
   */
  lemma {:induction false} UnchangedPlanAccepted(site: Site, rows: seq<Row>)
    requires WellFormed(site) && PriorOk(site, rows) && Urns(rows) == site.graph.Keys
    ensures Accepts(site, UnchangedPreview(site, rows),
                    SavedPlan(true, UnchangedPlans(site, Inventory(rows))), rows, true)
  {
    hide PriorOk, StateOk, GoalsOk, PreviewOk, DesiredOk, BindingsOk, AllReferencesOk, Hardened, Accepts, ShowRows;
    PriorParts(site, rows);
    var prior := Inventory(rows);
    CompleteNotLegacy(site, rows);
    UnchangedGoals(site, prior);
    UnchangedDesiredOk(site, prior);
    SomeOtherRow(site, rows);
    UnchangedPreviewOk(site, rows);
    AcceptedBy(site, UnchangedPreview(site, rows), UnchangedPlans(site, prior), rows, WithIds(prior), true);
  }

  lemma {:induction false} PriorParts(site: Site, rows: seq<Row>)
    requires PriorOk(site, rows)
    ensures DistinctUrns(rows) && Inventory(rows).Keys == Urns(rows)
    ensures AllReferencesOk(site, Inventory(rows), ProviderId(site, Inventory(rows)))
    ensures BindingsOk(site, Inventory(rows))
    ensures IsLegacy(site, rows) ==> Urns(rows) == site.baseline
    ensures AllRows(rows, RowCheck(site, IsLegacy(site, rows)))
  {
  }

  lemma {:induction false} CompleteNotLegacy(site: Site, rows: seq<Row>)
    requires WellFormed(site) && PriorOk(site, rows) && Urns(rows) == site.graph.Keys
    ensures forall i :: 0 <= i < |rows| ==> StateOk(site, rows[i], false, false, false)
    ensures forall u :: u in Inventory(rows) ==>
      Inventory(rows)[u].urn == u && StateOk(site, Inventory(rows)[u], false, false, false)
    ensures forall u :: !Hardened(site, Inventory(rows), u)
  {
    hide StateOk, PriorOk, SameMembers, LegacyInputs;
    PriorParts(site, rows);
    assert !IsLegacy(site, rows);
    forall i | 0 <= i < |rows| ensures StateOk(site, rows[i], false, false, false) {
      assert RowCheck(site, false)(rows[i]);
    }
    var prior := Inventory(rows);
    forall u | u in prior
      ensures prior[u].urn == u && StateOk(site, prior[u], false, false, false)
    {
      var i :| 0 <= i < |rows| && rows[i].urn == u;
    }
    if site.provider in prior {
      var i :| 0 <= i < |rows| && rows[i].urn == site.provider;
      assert !LegacyProvider(site, rows[i]);
      KindOf(site, rows[i]);
    }
  }

  lemma {:induction false} KindOf(site: Site, row: Row)
    requires StateOk(site, row, false, false, false)
    ensures row.urn in site.graph && row.kind == site.graph[row.urn].kind
  {
  }

  lemma {:induction false} SomeOtherRow(site: Site, rows: seq<Row>)
    requires WellFormed(site) && Urns(rows) == site.graph.Keys
    ensures exists i :: 0 <= i < |rows| && rows[i].urn != site.provider
  {
  }

  // ---------------------------------------------------------------- creations

  /** The diff of a creation adds all its inputs. */
  lemma {:induction false} AddsApply(inputs: Members)
    ensures ApplyDiff(Diff(Some(inputs), None, None), map[]) == Some(inputs)
    ensures ApplyDiff(NO_CHANGE, map[]) == Some(map[])
  {
    assert (map[] - {}) + inputs + map[] == inputs;
  }

  /** Any finite set of resources can be listed. */
  lemma {:induction false} SomeOrder(urns: set<Urn>) returns (order: seq<Urn>)
    ensures Unique(order) && forall u :: u in order <==> u in urns
  {
    if urns == {} {
      order := [];
    } else {
      var u :| u in urns;
      var rest := SomeOrder(urns - {u});
      order := [u] + rest;
      assert forall i :: 0 <= i < |rest| ==> rest[i] in rest;
    }
  }
}
