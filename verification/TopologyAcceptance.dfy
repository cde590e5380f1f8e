/**
 The first-workload gate is not vacuous: on every acceptable list of the whole registry's rows, a plan that
 leaves them alone and creates the workload's resources is accepted with its unrefreshed preview.
 */
module TopologyAcceptance {
  import opened Options
  import opened Texts
  import opened Json
  import opened CanonicalJson
  import opened RegistryRows
  import opened Redaction
  import opened RegistryPlan
  import opened RegistryHistory
  import opened RegistryProperties
  import opened RegistryRuns
  import opened RegistryStart
  import opened Topology
  import opened TopologyProperties

  // ---------------------------------------------------------------- the registry part

  /** A row shown as unchanged, without a refresh before. */
  lemma {:induction false} UnrefreshedStepOk(site: Site, prior: Rows, row: Row)
    requires row.urn in prior && prior[row.urn] == row && row.urn != site.provider && row.urn in site.graph
    requires StateOk(site, row, false, false, false)
    ensures PreviewStepOk(site, ShowRow(row, Same), prior, WithIds(prior), false)
  {
    ShowsItself(site, row);
    StateInPreview(site, row);
    hide StateOk, SemanticInputs, ShownOutputs;
  }

  lemma {:induction false} UnrefreshedPreviewOk(site: Site, rows: seq<Row>)
    requires DistinctUrns(rows) && Urns(rows) == site.graph.Keys
    requires forall i :: 0 <= i < |rows| ==> StateOk(site, rows[i], false, false, false)
    ensures PreviewOk(
      site, ShowRows(rows, site.provider, Same), Inventory(rows), WithIds(Inventory(rows)), false)
  {
    hide StateOk, PreviewStepOk, RefreshStepOk, ShowRows, WithIds, DistinctSteps, Inventory, Orderly, Refreshes;
    var prior, steps := Inventory(rows), ShowRows(rows, site.provider, Same);
    ShowRowsEnumerate(rows, site.provider, Same);
    forall i | 0 <= i < |steps|
      ensures steps[i].op == Same && PreviewStepOk(site, steps[i], prior, WithIds(prior), false)
    {
      var j := ShownFrom(rows, site.provider, Same, i);
      assert rows[j].urn in Urns(rows);
      UnrefreshedStepOk(site, prior, rows[j]);
    }
    OrderlyFrom([], steps, RefreshCheck(site, prior), StepCheck(site, prior, WithIds(prior)));
    assert [] + steps == steps && steps[..0] == [];
  }

  /** The registry gate accepts the unchanged plan with its unrefreshed preview, too. */
  lemma {:induction false} UnrefreshedAccepted(site: Site, rows: seq<Row>)
    requires WellFormed(site) && PriorOk(site, rows) && Urns(rows) == site.graph.Keys
    ensures DistinctUrns(rows) && forall u :: u in Inventory(rows) ==> Inventory(rows)[u].urn == u
    ensures Accepts(site, Preview(ShowRows(rows, site.provider, Same), false),
                    SavedPlan(true, UnchangedPlans(site, Inventory(rows))), rows, false)
  {
    hide PriorOk, StateOk, GoalsOk, PreviewOk, DesiredOk, BindingsOk, AllReferencesOk, Hardened, Accepts, ShowRows;
    PriorParts(site, rows);
    var prior := Inventory(rows);
    CompleteNotLegacy(site, rows);
    UnchangedGoals(site, prior);
    UnchangedDesiredOk(site, prior);
    UnrefreshedPreviewOk(site, rows);
    AcceptedBy(
      site, Preview(ShowRows(rows, site.provider, Same), false), UnchangedPlans(site, prior), rows, WithIds(prior),
      false);
  }

  // ---------------------------------------------------------------- creations

  /** What the program decides about a new resource beyond its place in the graph. */
  datatype Creation = Creation(
    inputs: Members, link: Reference, dependencies: seq<Urn>, propertyDependencies: map<Text, seq<Urn>>,
    secretOutputs: seq<Text>)

  /** The plan the engine writes for it. */
  function CreationPlan(w: Workload, u: Urn, c: Creation): ResourcePlan
    requires u in w.graph
  {
    var node := w.graph[u];
    ResourcePlan(
      Goal(node.kind, node.name, node.custom, node.parent, c.link, node.protect, false,
           Diff(Some(c.inputs), None, None), NO_CHANGE, c.dependencies, c.propertyDependencies, c.secretOutputs),
      [Create], Some(32))
  }

  function CreatedRow(w: Workload, u: Urn, c: Creation): Row
    requires u in w.graph
  {
    var node := w.graph[u];
    Row(u, node.kind, node.custom, node.parent, c.link, None, node.protect, false, c.inputs, map[],
        c.dependencies, c.propertyDependencies, c.secretOutputs)
  }

  /** Its provider link, secret and references are sound, and its inputs are no secret as a whole. */
  predicate CreationOk(site: Site, w: Workload, u: Urn, c: Creation, providerId: Text) {
    && u in w.graph
    && ProviderLinkOk(site, w, w.graph[u].kind, c.link, providerId)
    && SecretGoalOk(w, CreationPlan(w, u, c).goal, c.inputs)
    && !Envelope(c.inputs) && Redact(Obj(c.inputs)).Some?
    && Closed(CreatedRow(w, u, c), w.graph.Keys)
  }

  lemma {:induction false} CreationRow(site: Site, w: Workload, u: Urn, c: Creation, providerId: Text)
    requires CreationOk(site, w, u, c, providerId)
    ensures NewRow(site, w, u, CreationPlan(w, u, c), providerId) == Some(CreatedRow(w, u, c))
  {
    hide Redact, Closed, ApplyDiff;
    AddsApply(c.inputs);
  }

  /** The new row as the preview shows it, its secrets hidden. */
  function CreationStep(w: Workload, u: Urn, c: Creation): Step
    requires u in w.graph && Redact(Obj(c.inputs)).Some? && !Envelope(c.inputs)
  {
    var row := CreatedRow(w, u, c);
    Step(u, Create, c.link, None, row.(inputs := Redact(Obj(c.inputs)).value.members), false)
  }

  lemma {:induction false} CreationStepOk(site: Site, w: Workload, u: Urn, c: Creation, providerId: Text)
    requires CreationOk(site, w, u, c, providerId)
    ensures CreationShown(CreationStep(w, u, c), CreatedRow(w, u, c))
  {
    RedactedObject(c.inputs);
    hide Redact, Print, Closed;
  }

  lemma {:induction false} RedactedObject(inputs: Members)
    requires Redact(Obj(inputs)).Some? && !Envelope(inputs)
    ensures Redact(Obj(inputs)).value.Obj?
  {
  }

  type Creations = map<Urn, Creation>

  predicate CreationsOk(site: Site, w: Workload, creations: Creations, providerId: Text) {
    forall u :: u in creations ==> CreationOk(site, w, u, creations[u], providerId)
  }

  /** The whole saved plan: the registry unchanged, everything else created. */
  function WorkloadPlans(site: Site, w: Workload, prior: Rows, creations: Creations): Plans
    requires prior.Keys <= site.graph.Keys && forall u :: u in prior ==> prior[u].urn == u
  {
    map u | u in w.graph && (u in prior || u in creations) ::
      if u in prior then UnchangedPlan(site, prior[u]) else CreationPlan(w, u, creations[u])
  }

  function AsShown(steps: seq<Step>): seq<Shown> {
    seq(|steps|, i requires 0 <= i < |steps| => Shown(steps[i], true))
  }

  predicate Showable(w: Workload, order: seq<Urn>, creations: Creations) {
    forall i :: 0 <= i < |order| ==>
      var u := order[i];
      u in w.graph && u in creations && Redact(Obj(creations[u].inputs)).Some? && !Envelope(creations[u].inputs)
  }

  function CreationSteps(w: Workload, order: seq<Urn>, creations: Creations): seq<Step>
    requires Showable(w, order, creations)
  {
    seq(|order|, i requires 0 <= i < |order| => CreationStep(w, order[i], creations[order[i]]))
  }

  /** The unrefreshed preview: registry rows unchanged, then the creations in some order. */
  function WorkloadPreview(site: Site, w: Workload, rows: seq<Row>, order: seq<Urn>, creations: Creations): seq<Shown>
    requires Showable(w, order, creations)
  {
    AsShown(ShowRows(rows, site.provider, Same)) + AsShown(CreationSteps(w, order, creations))
  }

  // ---------------------------------------------------------------- acceptance

  lemma {:induction false} RegistryPartOf(a: seq<Step>, b: seq<Step>, prior: Rows)
    requires forall i :: 0 <= i < |a| ==> a[i].urn in prior
    requires forall i :: 0 <= i < |b| ==> b[i].urn !in prior
    ensures RegistrySteps(AsShown(a) + AsShown(b), prior) == a
    decreases |a| + |b|
  {
    var all := AsShown(a) + AsShown(b);
    if b != [] {
      var front := b[..|b| - 1];
      assert all[..|all| - 1] == AsShown(a) + AsShown(front) && all[|all| - 1] == Shown(b[|b| - 1], true);
      RegistryPartOf(a, front, prior);
    } else if a != [] {
      var front := a[..|a| - 1];
      assert all[..|all| - 1] == AsShown(front) + AsShown(b) && all[|all| - 1] == Shown(a[|a| - 1], true);
      RegistryPartOf(front, b, prior);
      assert a == front + [a[|a| - 1]];
    }
  }

  lemma {:induction false} DistinctJoined(a: seq<Step>, b: seq<Step>, urns: set<Urn>)
    requires DistinctSteps(a) && DistinctSteps(b)
    requires forall i :: 0 <= i < |a| ==> a[i].urn in urns
    requires forall i :: 0 <= i < |b| ==> b[i].urn !in urns
    ensures DistinctShown(AsShown(a) + AsShown(b))
  {
  }

  /** `order` lists the workload's own resources, each once. */
  ghost predicate Orders(site: Site, w: Workload, order: seq<Urn>) {
    Unique(order) && forall u :: u in order <==> u in w.graph && u !in site.graph
  }

  lemma {:induction false} ClosedInWhole(row: Row, urns: set<Urn>, more: set<Urn>)
    requires Closed(row, urns) && urns <= more
    ensures Closed(row, more)
  {
  }

  lemma {:induction false} PlansOf(
    site: Site, w: Workload, prior: Rows, order: seq<Urn>, creations: Creations, id: Text)
    requires Includes(w, site) && prior.Keys == site.graph.Keys && forall u :: u in prior ==> prior[u].urn == u
    requires Orders(site, w, order) && CreationsOk(site, w, creations, id)
    requires forall u :: u in order ==> u in creations
    ensures var plans := WorkloadPlans(site, w, prior, creations);
      && plans.Keys == w.graph.Keys
      && Restricted(plans, site.graph.Keys) == UnchangedPlans(site, prior)
      && NewRowsOk(site, w, plans, id)
      && Union(site, w, plans, prior, id).Keys == w.graph.Keys
      && forall u :: u in w.graph ==>
        u in Union(site, w, plans, prior, id)
        && Union(site, w, plans, prior, id)[u] == if u in prior then prior[u] else CreatedRow(w, u, creations[u])
  {
    hide NewRow, CreationOk, CreationPlan, UnchangedPlan, CreatedRow;
    var plans := WorkloadPlans(site, w, prior, creations);
    forall u | u in w.graph && u !in site.graph
      ensures u in plans && NewRow(site, w, u, plans[u], id) == Some(CreatedRow(w, u, creations[u]))
    {
      assert u in order;
      CreationRow(site, w, u, creations[u], id);
    }
    assert w.graph.Keys + prior.Keys == w.graph.Keys;
    assert plans.Keys == w.graph.Keys by {
      assert forall u :: u in w.graph && u !in site.graph ==> u in order;
    }
  }

  lemma {:induction false} OrderShowable(site: Site, w: Workload, order: seq<Urn>, creations: Creations, id: Text)
    requires CreationsOk(site, w, creations, id) && forall u :: u in order ==> u in creations
    ensures Showable(w, order, creations)
  {
    hide Redact, Closed, ProviderLinkOk, SecretGoalOk;
    forall i | 0 <= i < |order| ensures CreationOk(site, w, order[i], creations[order[i]], id) {
      assert order[i] in order;
    }
  }

  /** The preview is what the gate's pass over it wants. */
  lemma {:induction false} PreviewShownOk(
    site: Site, w: Workload, rows: seq<Row>, order: seq<Urn>, creations: Creations, id: Text, desired: Rows)
    requires Includes(w, site) && DistinctUrns(rows) && Urns(rows) == site.graph.Keys
    requires Orders(site, w, order) && CreationsOk(site, w, creations, id) && Showable(w, order, creations)
    requires forall u :: u in order ==> u in desired && desired[u] == CreatedRow(w, u, creations[u])
    ensures var steps := WorkloadPreview(site, w, rows, order, creations);
      && ShownOk(site, w, desired, steps) && Required(site, w) <= ShownUrns(steps)
      && RegistrySteps(steps, Inventory(rows)) == ShowRows(rows, site.provider, Same)
  {
    hide CreationShown, CreatedRow, ShowRows, CreationSteps, WorkloadStepOk, CreationOk, DistinctShown, Orders;
    hide Includes, Required, Showable, ShownUrns, RegistrySteps, AsShown, Inventory;
    var a, b := ShowRows(rows, site.provider, Same), CreationSteps(w, order, creations);
    RegistryStepsShown(site, w, rows, desired);
    CreationsShown(site, w, order, creations, id, desired);
    DistinctJoined(a, b, site.graph.Keys);
    RegistryPartOf(a, b, Inventory(rows));
    JoinedSteps(site, w, desired, a, b);
    RequiredShown(site, w, order, a, b);
  }

  lemma {:induction false} RegistryStepsShown(site: Site, w: Workload, rows: seq<Row>, desired: Rows)
    requires Includes(w, site) && DistinctUrns(rows) && Urns(rows) == site.graph.Keys
    ensures var a := ShowRows(rows, site.provider, Same);
      && DistinctSteps(a)
      && forall i :: 0 <= i < |a| ==>
        a[i].urn in site.graph && a[i].urn in Inventory(rows) && WorkloadStepOk(site, w, desired, a[i])
  {
    hide ShowRows, CreationShown;
    var a := ShowRows(rows, site.provider, Same);
    ShowRowsEnumerate(rows, site.provider, Same);
    forall i | 0 <= i < |a| ensures a[i].urn in site.graph {
      assert a[i].urn in StepUrns(a);
    }
  }

  lemma {:induction false} CreationsShown(
    site: Site, w: Workload, order: seq<Urn>, creations: Creations, id: Text, desired: Rows)
    requires Orders(site, w, order) && CreationsOk(site, w, creations, id) && Showable(w, order, creations)
    requires forall u :: u in order ==> u in desired && desired[u] == CreatedRow(w, u, creations[u])
    ensures var b := CreationSteps(w, order, creations);
      && |b| == |order| && DistinctSteps(b)
      && forall i :: 0 <= i < |b| ==>
        b[i].urn == order[i] && b[i].urn !in site.graph && WorkloadStepOk(site, w, desired, b[i])
  {
    hide CreationShown, CreatedRow, CreationStep, CreationOk;
    var b := CreationSteps(w, order, creations);
    forall i | 0 <= i < |b|
      ensures b[i].urn == order[i] && order[i] !in site.graph && WorkloadStepOk(site, w, desired, b[i])
    {
      assert order[i] in order;
      CreationUrn(w, order[i], creations[order[i]]);
      CreationStepOk(site, w, order[i], creations[order[i]], id);
    }
  }

  lemma {:induction false} JoinedSteps(site: Site, w: Workload, desired: Rows, a: seq<Step>, b: seq<Step>)
    requires forall i :: 0 <= i < |a| ==> WorkloadStepOk(site, w, desired, a[i])
    requires forall i :: 0 <= i < |b| ==> WorkloadStepOk(site, w, desired, b[i])
    ensures var steps := AsShown(a) + AsShown(b);
      forall i :: 0 <= i < |steps| ==> WorkloadStepOk(site, w, desired, steps[i].step)
  {
    hide WorkloadStepOk;
  }

  lemma {:induction false} RequiredShown(site: Site, w: Workload, order: seq<Urn>, a: seq<Step>, b: seq<Step>)
    requires Orders(site, w, order) && |b| == |order| && forall i :: 0 <= i < |b| ==> b[i].urn == order[i]
    ensures Required(site, w) <= ShownUrns(AsShown(a) + AsShown(b))
  {
    var steps := AsShown(a) + AsShown(b);
    forall u | u in Required(site, w) ensures u in ShownUrns(steps) {
      assert u in order;
      var i :| 0 <= i < |order| && order[i] == u;
      assert steps[|a| + i].step.urn == u;
    }
  }

  lemma {:induction false} CreationUrn(w: Workload, u: Urn, c: Creation)
    requires u in w.graph && Redact(Obj(c.inputs)).Some? && !Envelope(c.inputs)
    ensures CreationStep(w, u, c).urn == u
  {
  }

  /** Unchanged registry plans, sound creations and the unrefreshed preview of both are accepted. */
  lemma {:induction false} FirstWorkloadAccepted(
    site: Site, w: Workload, rows: seq<Row>, order: seq<Urn>, creations: Creations)
    requires WellFormed(site) && Includes(w, site) && PriorOk(site, rows) && Urns(rows) == site.graph.Keys
    requires DistinctUrns(rows) && site.provider in Inventory(rows)
    requires Orders(site, w, order) && forall u :: u in order ==> u in creations
    requires CreationsOk(site, w, creations, ProviderId(site, Inventory(rows)))
    ensures Showable(w, order, creations) && forall u :: u in Inventory(rows) ==> Inventory(rows)[u].urn == u
    ensures TopologyAccepts(
      site, w, WorkloadPreview(site, w, rows, order, creations), false,
      SavedPlan(true, WorkloadPlans(site, w, Inventory(rows), creations)), rows)
  {
    hide PriorOk, Accepts, CreationOk, ShownOk, Closed, WorkloadPreview, UnchangedPlans, Union, WorkloadPlans;
    hide NewRowsOk, Required, ShownUrns, RegistrySteps, TopologyAccepts, Restricted, CreatedRow, Showable, WellFormed;
    var prior, id := Inventory(rows), ProviderId(site, Inventory(rows));
    UnrefreshedAccepted(site, rows);
    OrderShowable(site, w, order, creations, id);
    PlansOf(site, w, prior, order, creations, id);
    var plans := WorkloadPlans(site, w, prior, creations);
    var desired := Union(site, w, plans, prior, id);
    DesiredClosed(site, w, rows, order, creations, desired);
    PreviewShownOk(site, w, rows, order, creations, id, desired);
    AcceptedByParts(site, w, WorkloadPreview(site, w, rows, order, creations), plans, rows);
  }

  /** The gate's conclusion from its parts. */
  lemma {:induction false} AcceptedByParts(site: Site, w: Workload, steps: seq<Shown>, plans: Plans, rows: seq<Row>)
    requires PriorOk(site, rows) && DistinctUrns(rows) && Inventory(rows).Keys == site.graph.Keys
    requires site.provider in Inventory(rows) && plans.Keys == w.graph.Keys
    requires Accepts(site, Preview(RegistrySteps(steps, Inventory(rows)), false),
                     SavedPlan(true, Restricted(plans, site.graph.Keys)), rows, false)
    requires NewRowsOk(site, w, plans, ProviderId(site, Inventory(rows)))
    requires var desired := Union(site, w, plans, Inventory(rows), ProviderId(site, Inventory(rows)));
      && (forall u :: u in desired ==> Closed(desired[u], desired.Keys))
      && ShownOk(site, w, desired, steps) && Required(site, w) <= ShownUrns(steps)
    ensures TopologyAccepts(site, w, steps, false, SavedPlan(true, plans), rows)
  {
    hide PriorOk, Accepts, ShownOk, Closed, Union, NewRowsOk, Required, ShownUrns, RegistrySteps, Restricted;
  }

  lemma {:induction false} DesiredClosed(
    site: Site, w: Workload, rows: seq<Row>, order: seq<Urn>, creations: Creations, desired: Rows)
    requires WellFormed(site) && Includes(w, site) && PriorOk(site, rows) && Urns(rows) == site.graph.Keys
    requires DistinctUrns(rows) && site.provider in Inventory(rows)
    requires Orders(site, w, order) && forall u :: u in order ==> u in creations
    requires CreationsOk(site, w, creations, ProviderId(site, Inventory(rows)))
    requires desired.Keys == w.graph.Keys
    requires forall u :: u in w.graph ==>
      desired[u] == if u in Inventory(rows) then Inventory(rows)[u] else CreatedRow(w, u, creations[u])
    ensures forall u :: u in desired ==> Closed(desired[u], desired.Keys)
  {
    hide PriorOk, Closed, CreatedRow, Redact, ProviderLinkOk, SecretGoalOk;
    PriorParts(site, rows);
    var prior := Inventory(rows);
    forall u | u in desired ensures Closed(desired[u], desired.Keys) {
      if u in prior {
        assert ReferencesOk(site, prior[u], prior.Keys, ProviderId(site, prior));
        ClosedInWhole(prior[u], prior.Keys, desired.Keys);
      } else {
        assert u in order;
        assert CreationOk(site, w, u, creations[u], ProviderId(site, prior));
      }
    }
  }

  // ---------------------------------------------------------------- such creations exist

  /** Packages other than AWS have their provider in the workload graph, and parents are in it. */
  predicate WorkloadShape(w: Workload, random: Urn, tls: Urn) {
    && random in w.graph && w.graph[random].kind == Provider("random")
    && tls in w.graph && w.graph[tls].kind == Provider("tls")
    && forall u :: u in w.graph ==> w.graph[u].parent == "" || w.graph[u].parent in w.graph
  }

  /** A creation with nothing but the link and, for a secret version, values not known yet. */
  function PlainCreation(site: Site, w: Workload, u: Urn, random: Urn, tls: Urn, providerId: Text): Creation
    requires u in w.graph
  {
    var kind := w.graph[u].kind;
    var link :=
      if Package(kind) == "aws" then ProvidedBy(site.provider, providerId)
      else if Package(kind) == "random" then ProvidedBy(random, UNKNOWN)
      else if Package(kind) == "tls" then ProvidedBy(tls, UNKNOWN)
      else NoProvider;
    if kind == w.secretVersion
    then
      Creation(
        map[SECRET_ID := UNKNOWN_VALUE, SECRET_STRING := UNKNOWN_VALUE], link, [], map[], w.secretVersionOutputs)
    else Creation(map[], link, [], map[], [])
  }

  lemma {:induction false} PlainCreationOk(site: Site, w: Workload, u: Urn, random: Urn, tls: Urn, providerId: Text)
    requires WorkloadShape(w, random, tls) && u in w.graph
    ensures CreationOk(site, w, u, PlainCreation(site, w, u, random, tls, providerId), providerId)
  {
    assert |SECRET_ID| == 8 && |SECRET_STRING| == 12 && |MARKER| == 32;
  }

  /** On every acceptable whole registry some plan starts the workload. */
  lemma {:induction false} FirstWorkloadPossible(site: Site, w: Workload, rows: seq<Row>, random: Urn, tls: Urn)
    returns (steps: seq<Shown>, saved: SavedPlan)
    requires WellFormed(site) && Includes(w, site) && PriorOk(site, rows) && Urns(rows) == site.graph.Keys
    requires WorkloadShape(w, random, tls)
    ensures TopologyAccepts(site, w, steps, false, saved, rows)
  {
    hide PriorOk, CreationOk, TopologyAccepts, WorkloadPreview, WorkloadPlans, WellFormed, Includes, WorkloadShape;
    hide Showable, Unique;
    PriorParts(site, rows);
    ProviderInGraph(site);
    var order := SomeOrder(w.graph.Keys - site.graph.Keys);
    var creations := PlainCreations(site, w, random, tls, ProviderId(site, Inventory(rows)));
    FirstWorkloadAccepted(site, w, rows, order, creations);
    steps := WorkloadPreview(site, w, rows, order, creations);
    saved := SavedPlan(true, WorkloadPlans(site, w, Inventory(rows), creations));
  }

  lemma {:induction false} ProviderInGraph(site: Site)
    requires WellFormed(site)
    ensures site.provider in site.graph
  {
  }

  lemma {:induction false} PlainCreations(site: Site, w: Workload, random: Urn, tls: Urn, id: Text)
    returns (creations: Creations)
    requires WorkloadShape(w, random, tls)
    ensures creations.Keys == w.graph.Keys && CreationsOk(site, w, creations, id)
  {
    hide CreationOk, PlainCreation, WorkloadShape;
    creations := map u | u in w.graph :: PlainCreation(site, w, u, random, tls, id);
    forall u | u in creations ensures CreationOk(site, w, u, creations[u], id) {
      PlainCreationOk(site, w, u, random, tls, id);
    }
  }

  // ---------------------------------------------------------------- carrying it out

  /** The stored row of a creation: its id, and that of its provider if it was new, are learned on the way. */
  function Learned(want: Row, ids: Urn -> Text): Row {
    var link := want.provider;
    want.(
      id := if want.custom then Some(ids(want.urn)) else None,
      provider := if link.ProvidedBy? && link.id == UNKNOWN then ProvidedBy(link.urn, ids(link.urn)) else link)
  }

  lemma {:induction false} LearnedCreated(want: Row, ids: Urn -> Text)
    ensures Created(want, Learned(want, ids))
  {
    hide InputsAgree;
    InputsAgreeSelf(want.inputs);
  }

  /** New resources of new providers are linked to the ids those providers got. */
  predicate LinksLearned(site: Site, after: Rows, ids: Urn -> Text) {
    forall u :: u in after && u !in site.graph ==>
      var link := after[u].provider;
      link.ProvidedBy? && link.urn !in site.graph ==> link.id == ids(link.urn)
  }

  /** The rows of a replay: the registry as its goals have it, and the creations with their ids. */
  function CarriedOut(site: Site, desired: Rows, wanted: Rows, ids: Urn -> Text): Rows {
    map u | u in wanted && (u in desired || u !in site.graph) ::
      if u in desired then desired[u] else Learned(wanted[u], ids)
  }

  lemma {:induction false} CarriedOutLinks(
    site: Site, w: Workload, plans: Plans, desired: Rows, wanted: Rows, id: Text, ids: Urn -> Text)
    requires site.provider in site.graph && desired.Keys == site.graph.Keys && wanted.Keys == w.graph.Keys
    requires NewRowsOk(site, w, plans, id)
    requires forall u :: u in w.graph && u !in site.graph ==> NewRow(site, w, u, plans[u], id) == Some(wanted[u])
    ensures LinksLearned(site, CarriedOut(site, desired, wanted, ids), ids)
  {
    hide NewRow;
    var after := CarriedOut(site, desired, wanted, ids);
    forall u | u in after && u !in site.graph
      ensures var link := after[u].provider;
        link.ProvidedBy? && link.urn !in site.graph ==> link.id == ids(link.urn)
    {
      NewRowLinked(site, w, u, plans[u], id);
    }
  }

  lemma {:induction false} CarriedOutReplays(
    site: Site, prior: Rows, desired: Rows, wanted: Rows, ids: Urn -> Text)
    requires desired.Keys == site.graph.Keys <= wanted.Keys && forall u :: !Hardened(site, prior, u)
    requires prior.Keys == site.graph.Keys
    ensures var after := CarriedOut(site, desired, wanted, ids);
      && after.Keys == wanted.Keys
      && Replays(site, prior, desired, map u | u in after && u in site.graph :: after[u])
      && forall u :: u in wanted && u !in site.graph ==> Created(wanted[u], after[u])
  {
    hide Carried, Created, Hardened, Learned;
    var after := CarriedOut(site, desired, wanted, ids);
    assert (map u | u in after && u in site.graph :: after[u]) == desired;
    forall u | u in desired ensures Carried(site, ExpectedOperation(site, u, Find(prior, u)), desired[u], desired[u]) {
      NotHardened(site, prior, u);
      SameCarried(site, desired[u]);
    }
    forall u | u in wanted && u !in site.graph ensures Created(wanted[u], after[u]) {
      LearnedCreated(wanted[u], ids);
    }
  }

  lemma {:induction false} CarryOut(
    site: Site, w: Workload, saved: SavedPlan, rows: seq<Row>, ids: Urn -> Text) returns (after: Rows)
    requires DistinctUrns(rows) && site.provider in Inventory(rows) && Inventory(rows).Keys == site.graph.Keys
    requires NewRowsOk(site, w, saved.plans, ProviderId(site, Inventory(rows))) && Includes(w, site)
    requires GoalsOk(site, Restricted(saved.plans, site.graph.Keys), Inventory(rows))
    requires site.graph.Keys <= saved.plans.Keys && forall u :: !Hardened(site, Inventory(rows), u)
    ensures TopologyReplays(site, w, saved, rows, after) && LinksLearned(site, after, ids)
  {
    hide NewRow, Desired, Replays, Created, Inventory, DistinctUrns, CarriedOut, Hardened, LinksLearned;
    var prior, plans := Inventory(rows), Restricted(saved.plans, site.graph.Keys);
    var desired, wanted := DesiredRows(site, plans, prior), DesiredUnion(site, w, saved, rows);
    after := CarriedOut(site, desired, wanted, ids);
    CarriedOutReplays(site, prior, desired, wanted, ids);
    CarriedOutLinks(site, w, saved.plans, desired, wanted, ProviderId(site, prior), ids);
  }

  lemma {:induction false} SameCarried(site: Site, row: Row)
    ensures Carried(site, Same, row, row)
  {
    hide SemanticInputs, StableOutputs;
  }

  /** Every accepted first-workload plan can be carried out, with whatever ids the new resources get. */
  lemma {:induction false} WorkloadReplayPossible(
    site: Site, w: Workload, steps: seq<Shown>, maybeCorrupt: bool, saved: SavedPlan, rows: seq<Row>, ids: Urn -> Text)
    returns (after: Rows)
    requires WellFormed(site) && Includes(w, site) && TopologyAccepts(site, w, steps, maybeCorrupt, saved, rows)
    ensures WorkloadReplay(site, w, steps, maybeCorrupt, saved, rows, after) && LinksLearned(site, after, ids)
  {
    hide PriorOk, TopologyAccepts, GoalsOk, PreviewOk, NewRowsOk, Hardened, TopologyReplays, LinksLearned, WellFormed;
    hide StateOk;
    RegistryPart(site, w, steps, maybeCorrupt, saved, rows);
    CompleteNotLegacy(site, rows);
    after := CarryOut(site, w, saved, rows, ids);
  }

  /** From every acceptable list of rows some history leads to the whole graph, and on to the workload. */
  lemma {:induction false} WorkloadReachable(
    site: Site, identity: Urn, w: Workload, rows: seq<Row>, requireRefresh: bool, a: Answers, ids: Urn -> Text,
    random: Urn, tls: Urn)
    returns (states: seq<Rows>, after: Rows)
    requires Installed(site, identity) && Includes(w, site) && WorkloadShape(w, random, tls)
    requires PriorOk(site, rows) && AnswersOk(a)
    ensures |states| == 2 && DistinctUrns(rows) && states[0] == Inventory(rows)
    ensures History(site, requireRefresh, states) && WorkloadStepped(site, w, states[1], after)
    ensures LinksLearned(site, after, ids)
  {
    hide PriorOk, NodeOk, NodesOf, AnswersOk, History, Includes, WorkloadShape, TopologyAccepts, WellFormed;
    hide LinksLearned, WorkloadReplay;
    var last;
    states, last := HistoryPossible(site, identity, rows, requireRefresh, a, 1);
    var steps, saved := FirstWorkloadPossible(site, w, last, random, tls);
    after := WorkloadReplayPossible(site, w, steps, false, saved, last, ids);
    assert WorkloadReplay(site, w, steps, false, saved, last, after) && DistinctUrns(last)
      && Inventory(last) == states[1];
  }
}
