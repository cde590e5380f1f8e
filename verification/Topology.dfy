/**
 The first-workload gate (scripts/poc_workload_topology.py): a saved plan may extend the registry graph by the
 workload's resources only if the registry gate accepts its registry part and every other resource is new.
 */
module Topology {
  import opened Options
  import opened Texts
  import opened Json
  import opened CanonicalJson
  import opened RegistryRows
  import opened Redaction
  import opened RegistryPlan

  const SECRET_ID: Text := T("secretId")
  const SECRET_STRING: Text := T("secretString")

  /** The installed composition: the registry graph and the workload's resources, and what is pinned of them. */
  datatype Workload = Workload(graph: Graph, secretVersion: Kind, secretVersionOutputs: seq<Text>)

  /** The registry graph is part of the workload graph. */
  predicate Includes(w: Workload, site: Site) {
    forall u :: u in site.graph ==>
      u in w.graph && w.graph[u].kind == site.graph[u].kind && w.graph[u].parent == site.graph[u].parent
      && w.graph[u].custom == site.graph[u].custom
  }

  function Package(kind: Kind): string {
    match kind
    case Provider(_) => "pulumi"
    case Ecr => "aws"
    case Ses => "aws"
    case Dns => "aws"
    case Other(package, _) => package
    case _ => ""
  }

  /** `_provider_value`: the link a resource of this kind must have. */
  predicate ProviderLinkOk(site: Site, w: Workload, kind: Kind, link: Reference, providerId: Text) {
    var package := Package(kind);
    if package == "aws" then link == ProvidedBy(site.provider, providerId)
    else if package == "random" || package == "tls" then
      && link.ProvidedBy? && link.id == UNKNOWN
      && link.urn in w.graph && w.graph[link.urn].kind == Provider(package)
    else link.NoProvider?
  }

  /** `_secret_version_goal`: a secret version's text is wrapped, or not known yet. */
  predicate SecretGoalOk(w: Workload, goal: Goal, inputs: Members) {
    goal.kind == w.secretVersion ==>
      && inputs.Keys == {SECRET_ID, SECRET_STRING}
      && goal.secretOutputs == w.secretVersionOutputs
      && (inputs[SECRET_STRING] != UNKNOWN_VALUE ==>
           inputs[SECRET_STRING].Obj? && Envelope(inputs[SECRET_STRING].members))
  }

  /** `_new_goal`: the row a resource plan of the workload asks for. */
  function NewRow(site: Site, w: Workload, urn: Urn, plan: ResourcePlan, providerId: Text): Option<Row> {
    var goal := plan.goal;
    if plan.steps != [Create] || plan.seed != Some(32) || urn !in w.graph || goal.overridden then None
    else
      var node := w.graph[urn];
      if goal.kind != node.kind || goal.parent != node.parent || goal.custom != node.custom
        || goal.protect != node.protect || goal.name != node.name then None
      else
        var (inputs, outputs) :- GoalValues(site, goal, None, false);
        if ProviderLinkOk(site, w, goal.kind, goal.provider, providerId) && SecretGoalOk(w, goal, inputs)
          && Redact(Obj(inputs)).Some?
        then
          Some(Row(urn, goal.kind, goal.custom, goal.parent, goal.provider, None, goal.protect, false, inputs, outputs,
                   goal.dependencies, goal.propertyDependencies, goal.secretOutputs))
        else None
  }

  predicate NewRowsOk(site: Site, w: Workload, plans: Plans, providerId: Text) {
    forall u :: u in w.graph && u !in site.graph ==>
      u in plans && NewRow(site, w, u, plans[u], providerId).Some?
  }

  /** The rows observed, and those the workload adds. */
  function Union(site: Site, w: Workload, plans: Plans, prior: Rows, providerId: Text): Rows {
    map u | u in w.graph.Keys + prior.Keys
      && (u in prior || (u in plans && NewRow(site, w, u, plans[u], providerId).Some?)) ::
      if u in prior then prior[u] else NewRow(site, w, u, plans[u], providerId).value
  }

  // ---------------------------------------------------------------- preview

  /** A displayed step; the engine may leave out the outputs of a component that does not change. */
  datatype Shown = Shown(step: Step, outputsShown: bool)

  /** A step of the registry part, with left-out component outputs restored from the observed row. */
  function Restored(shown: Shown, prior: Rows): Step
    requires shown.step.urn in prior
  {
    var was := prior[shown.step.urn];
    if (was.kind == Stack || was.kind == Environment) && !shown.outputsShown
    then shown.step.(newState := shown.step.newState.(outputs := was.outputs))
    else shown.step
  }

  function RegistrySteps(steps: seq<Shown>, prior: Rows): seq<Step> {
    if steps == [] then []
    else
      var front, last := RegistrySteps(steps[..|steps| - 1], prior), steps[|steps| - 1];
      if last.step.urn in prior then front + [Restored(last, prior)] else front
  }

  /** `_baseline_steps`. */
  method BaselineSteps(steps: seq<Shown>, prior: Rows) returns (result: seq<Step>)
    ensures result == RegistrySteps(steps, prior)
  {
    result := [];
    for n := 0 to |steps|
      invariant result == RegistrySteps(steps[..n], prior)
    {
      assert steps[..n + 1][..n] == steps[..n];
      if steps[n].step.urn in prior {
        result := result + [Restored(steps[n], prior)];
      }
    }
    assert steps[..|steps|] == steps;
  }

  /** `_validate_workload_step`: the creation of `want`, its secrets hidden. */
  predicate CreationShown(step: Step, want: Row) {
    && step.op == Create && step.oldState.None?
    && var new_ := step.newState;
    && !new_.flagged && FreshId(new_)
    && new_.urn == want.urn && new_.kind == want.kind && new_.custom == want.custom && new_.parent == want.parent
    && new_.provider == want.provider && new_.protect == want.protect
    && new_.dependencies == want.dependencies && new_.propertyDependencies == want.propertyDependencies
    && new_.secretOutputs == want.secretOutputs
    && Redact(Obj(want.inputs)).Some?
    && Print(Obj(new_.inputs)) == Print(Redact(Obj(want.inputs)).value)
    && !step.explained
  }

  predicate DistinctShown(steps: seq<Shown>) {
    forall i, j :: 0 <= i < j < |steps| ==> steps[i].step.urn != steps[j].step.urn
  }

  predicate WorkloadStepOk(site: Site, w: Workload, desired: Rows, step: Step) {
    step.urn in w.graph && (step.urn !in site.graph ==> step.urn in desired && CreationShown(step, desired[step.urn]))
  }

  predicate ShownOk(site: Site, w: Workload, desired: Rows, steps: seq<Shown>) {
    DistinctShown(steps) && forall i :: 0 <= i < |steps| ==> WorkloadStepOk(site, w, desired, steps[i].step)
  }

  function ShownUrns(steps: seq<Shown>): set<Urn> {
    set i | 0 <= i < |steps| :: steps[i].step.urn
  }

  /** `_validate_workload_steps`. */
  method CheckShown(site: Site, w: Workload, desired: Rows, steps: seq<Shown>) returns (seen: Option<set<Urn>>)
    ensures seen.Some? <==> ShownOk(site, w, desired, steps)
    ensures seen.Some? ==> seen.value == ShownUrns(steps)
  {
    hide WorkloadStepOk;
    var found: set<Urn> := {};
    for n := 0 to |steps|
      invariant DistinctShown(steps[..n])
      invariant forall i :: 0 <= i < n ==> WorkloadStepOk(site, w, desired, steps[i].step)
      invariant forall u :: u in found <==> exists i :: 0 <= i < n && steps[i].step.urn == u
    {
      if !WorkloadStepOk(site, w, desired, steps[n].step) || steps[n].step.urn in found {
        return None;
      }
      found := found + {steps[n].step.urn};
    }
    assert steps[..|steps|] == steps;
    return Some(found);
  }

  /** New resources that are not providers must be shown. */
  function Required(site: Site, w: Workload): set<Urn> {
    set u | u in w.graph && u !in site.graph && !w.graph[u].kind.Provider?
  }

  function Restricted(plans: Plans, urns: set<Urn>): Plans {
    map u | u in plans && u in urns :: plans[u]
  }

  // ---------------------------------------------------------------- the gate

  predicate TopologyAccepts(
    site: Site, w: Workload, steps: seq<Shown>, maybeCorrupt: bool, saved: SavedPlan, rows: seq<Row>)
  {
    && PriorOk(site, rows)
    && var prior := Inventory(rows);
    && prior.Keys == site.graph.Keys
    && saved.plans.Keys == w.graph.Keys
    && Accepts(site, Preview(RegistrySteps(steps, prior), maybeCorrupt),
               SavedPlan(saved.pinnedManifest, Restricted(saved.plans, site.graph.Keys)), rows, false)
    && site.provider in prior
    && var providerId := ProviderId(site, prior);
    && NewRowsOk(site, w, saved.plans, providerId)
    && var desired := Union(site, w, saved.plans, prior, providerId);
    && (forall u :: u in desired ==> Closed(desired[u], desired.Keys))
    && ShownOk(site, w, desired, steps)
    && Required(site, w) <= ShownUrns(steps)
  }

  method CheckClosed(desired: Rows) returns (ok: bool)
    ensures ok <==> forall u :: u in desired ==> Closed(desired[u], desired.Keys)
  {
    var todo := desired.Keys;
    while todo != {}
      invariant todo <= desired.Keys
      invariant forall u :: u in desired.Keys - todo ==> Closed(desired[u], desired.Keys)
      decreases |todo|
    {
      var u :| u in todo;
      if !Closed(desired[u], desired.Keys) {
        return false;
      }
      todo := todo - {u};
    }
    return true;
  }

  /** The rows observed with every new row added. */
  method ExtendRows(site: Site, w: Workload, plans: Plans, prior: Rows, providerId: Text) returns (r: Option<Rows>)
    requires prior.Keys == site.graph.Keys && plans.Keys == w.graph.Keys
    ensures r.Some? <==> NewRowsOk(site, w, plans, providerId)
    ensures r.Some? ==> r.value == Union(site, w, plans, prior, providerId)
  {
    hide NewRow;
    var goal := (u: Urn) => if u in plans then NewRow(site, w, u, plans[u], providerId) else None;
    var added := Collect(w.graph.Keys - site.graph.Keys, goal);
    assert forall u :: u in plans ==> goal(u) == NewRow(site, w, u, plans[u], providerId);
    assert added.Some? <==> NewRowsOk(site, w, plans, providerId) by {
      assert forall u :: u in w.graph && u !in site.graph <==> u in w.graph.Keys - site.graph.Keys;
    }
    if added.None? {
      return None;
    }
    return Some(prior + added.value);
  }

  /** `validate_first_workload_topology`. */
  method ValidateTopology(
    site: Site, w: Workload, steps: seq<Shown>, maybeCorrupt: bool, saved: SavedPlan, rows: seq<Row>) returns (ok: bool)
    requires WellFormed(site)
    ensures ok <==> TopologyAccepts(site, w, steps, maybeCorrupt, saved, rows)
  {
    hide PriorOk, Accepts, NewRowsOk, ShownOk, Union, Closed;
    var prior := Prior(site, rows);
    if prior.None? || prior.value.Keys != site.graph.Keys || saved.plans.Keys != w.graph.Keys {
      return false;
    }
    var registrySteps := BaselineSteps(steps, prior.value);
    var accepted := Validate(
      site, Preview(registrySteps, maybeCorrupt),
      SavedPlan(saved.pinnedManifest, Restricted(saved.plans, site.graph.Keys)), rows, false);
    if !accepted {
      return false;
    }
    var desired := ExtendRows(site, w, saved.plans, prior.value, IdOf(prior.value[site.provider]));
    if desired.None? {
      return false;
    }
    var closed := CheckClosed(desired.value);
    if !closed {
      return false;
    }
    var seen := CheckShown(site, w, desired.value, steps);
    ok := seen.Some? && Required(site, w) <= seen.value;
  }
}
