/**
 An accepted first-workload plan is a conservative extension of the registry: its registry part is itself an
 accepted plan that changes nothing, everything else is created, and nothing points outside the whole.
 */
module TopologyProperties {
  import opened Options
  import opened Texts
  import opened Json
  import opened CanonicalJson
  import opened RegistryRows
  import opened Redaction
  import opened RegistryPlan
  import opened RegistryHistory
  import opened RegistryProperties
  import opened Topology

  // ---------------------------------------------------------------- the registry part of the preview

  lemma {:induction false} RegistryStepOf(steps: seq<Shown>, prior: Rows, k: nat) returns (i: nat)
    requires k < |RegistrySteps(steps, prior)|
    ensures i < |steps| && steps[i].step.urn in prior && RegistrySteps(steps, prior)[k] == Restored(steps[i], prior)
  {
    var front := RegistrySteps(steps[..|steps| - 1], prior);
    if k < |front| {
      i := RegistryStepOf(steps[..|steps| - 1], prior, k);
    } else {
      i := |steps| - 1;
    }
  }

  lemma {:induction false} RegistryStepAt(steps: seq<Shown>, prior: Rows, i: nat) returns (k: nat)
    requires i < |steps| && steps[i].step.urn in prior
    ensures k < |RegistrySteps(steps, prior)| && RegistrySteps(steps, prior)[k] == Restored(steps[i], prior)
  {
    if i < |steps| - 1 {
      k := RegistryStepAt(steps[..|steps| - 1], prior, i);
    } else {
      k := |RegistrySteps(steps[..|steps| - 1], prior)|;
    }
  }

  lemma {:induction false} RegistryStepsDistinct(steps: seq<Shown>, prior: Rows)
    requires DistinctShown(steps)
    ensures DistinctSteps(RegistrySteps(steps, prior))
  {
    if steps != [] {
      var front := steps[..|steps| - 1];
      RegistryStepsDistinct(front, prior);
      forall k | 0 <= k < |RegistrySteps(front, prior)|
        ensures RegistrySteps(front, prior)[k].urn != steps[|steps| - 1].step.urn
      {
        var i := RegistryStepOf(front, prior, k);
      }
    }
  }

  /** A preview that shows no resource twice cannot have refreshed: it would have to show each of them twice. */
  lemma {:induction false} NoRefresh(site: Site, steps: seq<Step>, prior: Rows, desired: Rows)
    requires prior.Keys == site.graph.Keys && DistinctSteps(steps) && PreviewOk(site, steps, prior, desired, false)
    ensures Refreshes(steps) == 0
  {
    hide Refreshes, Orderly;
    var n := Refreshes(steps);
    if n > 0 {
      assert n <= |steps|;
      assert steps[..n][0].urn in StepUrns(steps[..n]);
      DistinctHalves(steps, n);
    }
  }

  lemma {:induction false} DistinctHalves(steps: seq<Step>, n: nat)
    requires DistinctSteps(steps) && 0 < n <= |steps|
    ensures steps[0].urn !in StepUrns(steps[n..])
  {
  }

  /** What the gate accepted about its registry part. */
  lemma {:induction false} RegistryPart(
    site: Site, w: Workload, steps: seq<Shown>, maybeCorrupt: bool, saved: SavedPlan, rows: seq<Row>)
    requires WellFormed(site) && TopologyAccepts(site, w, steps, maybeCorrupt, saved, rows)
    ensures DistinctUrns(rows) && PriorOk(site, rows) && Urns(rows) == site.graph.Keys
    ensures var prior, plans := Inventory(rows), Restricted(saved.plans, site.graph.Keys);
      && site.provider in prior && prior.Keys == site.graph.Keys && plans.Keys == site.graph.Keys
      && GoalsOk(site, plans, prior)
      && PreviewOk(site, RegistrySteps(steps, prior), prior, DesiredRows(site, plans, prior), false)
      && DistinctShown(steps)
      && NewRowsOk(site, w, saved.plans, ProviderId(site, prior)) && saved.plans.Keys == w.graph.Keys
  {
    hide PriorOk, GoalsOk, PreviewOk, DesiredOk, NewRowsOk, Union, Closed, Required;
    PriorParts(site, rows);
  }

  lemma {:induction false} RegistryStepSame(site: Site, steps: seq<Shown>, prior: Rows, desired: Rows, i: nat)
    requires prior.Keys == site.graph.Keys && DistinctShown(steps)
    requires PreviewOk(site, RegistrySteps(steps, prior), prior, desired, false)
    requires i < |steps| && steps[i].step.urn in prior
    ensures steps[i].step.op == Same
  {
    hide PreviewOk, DistinctShown, RegistrySteps;
    var registry := RegistrySteps(steps, prior);
    RegistryStepsDistinct(steps, prior);
    NoRefresh(site, registry, prior, desired);
    var k := RegistryStepAt(steps, prior, i);
    StepOperation(site, registry, prior, desired, false, k);
  }

  /** Registry steps of an accepted preview are all `same`, all others creations: no step is a refresh. */
  lemma {:induction false} NothingRefreshed(
    site: Site, w: Workload, steps: seq<Shown>, maybeCorrupt: bool, saved: SavedPlan, rows: seq<Row>, i: nat)
    requires WellFormed(site) && TopologyAccepts(site, w, steps, maybeCorrupt, saved, rows) && i < |steps|
    ensures steps[i].step.op == if steps[i].step.urn in site.graph then Same else Create
  {
    hide PreviewOk, GoalsOk, PriorOk, TopologyAccepts, DistinctShown, WellFormed, Desired, RegistrySteps;
    if steps[i].step.urn in site.graph {
      RegistryPart(site, w, steps, maybeCorrupt, saved, rows);
      var prior, plans := Inventory(rows), Restricted(saved.plans, site.graph.Keys);
      RegistryStepSame(site, steps, prior, DesiredRows(site, plans, prior), i);
    } else {
      WorkloadStep(site, w, steps, maybeCorrupt, saved, rows, i);
    }
  }

  lemma {:induction false} WorkloadStep(
    site: Site, w: Workload, steps: seq<Shown>, maybeCorrupt: bool, saved: SavedPlan, rows: seq<Row>, i: nat)
    requires TopologyAccepts(site, w, steps, maybeCorrupt, saved, rows) && i < |steps|
    requires steps[i].step.urn !in site.graph
    ensures steps[i].step.urn in w.graph && steps[i].step.op == Create
  {
    hide Accepts, PriorOk, NewRow, Closed, Required, NewRowsOk, Union;
  }

  // ---------------------------------------------------------------- conservative extension

  /** The rows the accepted plan is judged to lead to. */
  function DesiredUnion(site: Site, w: Workload, saved: SavedPlan, rows: seq<Row>): Rows {
    Union(site, w, saved.plans, Inventory(rows), ProviderId(site, Inventory(rows)))
  }

  lemma {:induction false} RetainedUnchanged(site: Site, plans: Plans, prior: Rows, u: Urn)
    requires u in plans && u in prior && !Hardened(site, prior, u) && GoalsOk(site, plans, prior)
    ensures plans[u].steps == [Same] && Desired(site, u, plans[u], Some(prior[u])).Some?
    ensures Keeps(site, prior[u], Desired(site, u, plans[u], Some(prior[u])).value)
  {
    hide Keeps, Hardened, Desired;
    assert Find(prior, u) == Some(prior[u]);
    PlanSteps(site, u, plans[u], prior);
    ExpectsSame(site, prior, u);
    RetainedKeeps(site, u, plans[u], prior[u]);
  }

  lemma {:induction false} RegistryUnchanged(
    site: Site, w: Workload, steps: seq<Shown>, maybeCorrupt: bool, saved: SavedPlan, rows: seq<Row>, u: Urn)
    requires WellFormed(site) && TopologyAccepts(site, w, steps, maybeCorrupt, saved, rows) && u in site.graph
    ensures DistinctUrns(rows)
    ensures u in saved.plans && saved.plans[u].steps == [Same] && u in Inventory(rows)
    ensures Desired(site, u, saved.plans[u], Some(Inventory(rows)[u])).Some?
    ensures Keeps(site, Inventory(rows)[u], Desired(site, u, saved.plans[u], Some(Inventory(rows)[u])).value)
  {
    hide PreviewOk, PriorOk, TopologyAccepts, DistinctShown, Keeps, Hardened, Desired, WellFormed, StateOk;
    RegistryPart(site, w, steps, maybeCorrupt, saved, rows);
    CompleteNotLegacy(site, rows);
    var prior, plans := Inventory(rows), Restricted(saved.plans, site.graph.Keys);
    RetainedUnchanged(site, plans, prior, u);
    assert plans[u] == saved.plans[u];
  }

  lemma {:induction false} ExpectsSame(site: Site, prior: Rows, u: Urn)
    requires u in prior && !Hardened(site, prior, u)
    ensures ExpectedOperation(site, u, Some(prior[u])) == Same
  {
  }

  predicate ExtendsConservatively(site: Site, w: Workload, saved: SavedPlan, prior: Rows, desired: Rows) {
    && prior.Keys == site.graph.Keys && desired.Keys == saved.plans.Keys == w.graph.Keys
    && (forall u :: u in site.graph ==>
      u in saved.plans && saved.plans[u].steps == [Same] && Find(desired, u) == Find(prior, u))
    && (forall u :: u in w.graph && u !in site.graph ==>
      u !in prior && u in saved.plans && saved.plans[u].steps == [Create])
    && (forall u :: u in desired ==> Closed(desired[u], w.graph.Keys))
  }

  /**
   The plan extends the registry conservatively: every registry resource keeps its row, every other resource
   is created, and all parents and dependencies, old and new, are resources of the whole.
   */
  lemma {:induction false} ConservativeExtension(
    site: Site, w: Workload, steps: seq<Shown>, maybeCorrupt: bool, saved: SavedPlan, rows: seq<Row>)
    requires WellFormed(site) && Includes(w, site) && TopologyAccepts(site, w, steps, maybeCorrupt, saved, rows)
    ensures ExtendsConservatively(site, w, saved, Inventory(rows), DesiredUnion(site, w, saved, rows))
  {
    hide PriorOk, TopologyAccepts, Closed, Desired, NewRow, PreviewOk, GoalsOk, WellFormed, Union;
    RegistryPart(site, w, steps, maybeCorrupt, saved, rows);
    var prior := Inventory(rows);
    UnionRows(site, w, saved.plans, prior, ProviderId(site, prior));
    UnionClosed(site, w, steps, maybeCorrupt, saved, rows);
    forall u | u in site.graph ensures saved.plans[u].steps == [Same] {
      RegistryUnchanged(site, w, steps, maybeCorrupt, saved, rows, u);
    }
    forall u | u in w.graph && u !in site.graph ensures saved.plans[u].steps == [Create] {
      NewIsCreated(site, w, u, saved.plans[u], ProviderId(site, prior));
    }
  }

  lemma {:induction false} UnionRows(site: Site, w: Workload, plans: Plans, prior: Rows, providerId: Text)
    requires Includes(w, site) && prior.Keys == site.graph.Keys && NewRowsOk(site, w, plans, providerId)
    ensures Union(site, w, plans, prior, providerId).Keys == w.graph.Keys
    ensures forall u :: u in prior ==> Union(site, w, plans, prior, providerId)[u] == prior[u]
  {
  }

  lemma {:induction false} UnionClosed(
    site: Site, w: Workload, steps: seq<Shown>, maybeCorrupt: bool, saved: SavedPlan, rows: seq<Row>)
    requires TopologyAccepts(site, w, steps, maybeCorrupt, saved, rows)
    ensures DistinctUrns(rows) && site.provider in Inventory(rows) && Inventory(rows).Keys == site.graph.Keys
    ensures NewRowsOk(site, w, saved.plans, ProviderId(site, Inventory(rows)))
    ensures var desired := DesiredUnion(site, w, saved, rows);
      forall u :: u in desired ==> Closed(desired[u], desired.Keys)
  {
    hide PriorOk, Accepts, ShownOk, Closed, NewRowsOk, Required;
    PriorParts(site, rows);
  }

  lemma {:induction false} NewIsCreated(site: Site, w: Workload, u: Urn, plan: ResourcePlan, providerId: Text)
    requires NewRow(site, w, u, plan, providerId).Some?
    ensures plan.steps == [Create]
  {
  }

  /** Every new resource other than a provider is shown exactly once, as a creation of the row its goal asks for. */
  lemma {:induction false} NewShownOnce(
    site: Site, w: Workload, steps: seq<Shown>, maybeCorrupt: bool, saved: SavedPlan, rows: seq<Row>, u: Urn)
    returns (i: nat)
    requires u in w.graph && u !in site.graph && !w.graph[u].kind.Provider?
    requires TopologyAccepts(site, w, steps, maybeCorrupt, saved, rows)
    ensures i < |steps| && steps[i].step.urn == u
    ensures forall j :: 0 <= j < |steps| && steps[j].step.urn == u ==> j == i
    ensures u in DesiredUnion(site, w, saved, rows)
    ensures CreationShown(steps[i].step, DesiredUnion(site, w, saved, rows)[u])
  {
    hide Accepts, PriorOk, NewRow, Closed, NewRowsOk, Union, CreationShown;
    PriorParts(site, rows);
    assert u in Required(site, w);
    assert u in ShownUrns(steps);
    i :| 0 <= i < |steps| && steps[i].step.urn == u;
    assert WorkloadStepOk(site, w, DesiredUnion(site, w, saved, rows), steps[i].step);
  }

  lemma {:induction false} AcceptedNewRow(
    site: Site, w: Workload, steps: seq<Shown>, maybeCorrupt: bool, saved: SavedPlan, rows: seq<Row>, u: Urn)
    requires TopologyAccepts(site, w, steps, maybeCorrupt, saved, rows) && u in w.graph && u !in site.graph
    ensures DistinctUrns(rows) && site.provider in Inventory(rows) && Inventory(rows).Keys == site.graph.Keys
    ensures u in saved.plans && NewRowsOk(site, w, saved.plans, ProviderId(site, Inventory(rows)))
    ensures var row := NewRow(site, w, u, saved.plans[u], ProviderId(site, Inventory(rows)));
      row.Some? && u in DesiredUnion(site, w, saved, rows) && DesiredUnion(site, w, saved, rows)[u] == row.value
  {
    hide Accepts, PriorOk, NewRow, Closed, ShownOk;
    PriorParts(site, rows);
  }

  /** The inputs of a secret version: its secret, and a text that is wrapped or not known yet. */
  predicate SecretInputs(inputs: Members) {
    && inputs.Keys == {SECRET_ID, SECRET_STRING}
    && (inputs[SECRET_STRING] == UNKNOWN_VALUE
        || (inputs[SECRET_STRING].Obj? && Envelope(inputs[SECRET_STRING].members)))
  }

  lemma {:induction false} NewRowLinked(site: Site, w: Workload, u: Urn, plan: ResourcePlan, providerId: Text)
    requires NewRow(site, w, u, plan, providerId).Some?
    ensures var row := NewRow(site, w, u, plan, providerId).value;
      && row.urn == u && row.kind == w.graph[u].kind && row.parent == w.graph[u].parent
      && row.custom == w.graph[u].custom && row.protect == w.graph[u].protect
      && ProviderLinkOk(site, w, row.kind, row.provider, providerId)
      && (row.kind == w.secretVersion ==> SecretInputs(row.inputs))
  {
    hide GoalValues, Redact;
  }

  /**
   A new resource is in its place in the graph, protected as the graph says, and its provider link leads to
   a provider of its own package: the observed one with its id for AWS, a new one otherwise.
   */
  lemma {:induction false} NewRowPlaced(
    site: Site, w: Workload, steps: seq<Shown>, maybeCorrupt: bool, saved: SavedPlan, rows: seq<Row>, u: Urn)
    requires WellFormed(site) && Includes(w, site) && TopologyAccepts(site, w, steps, maybeCorrupt, saved, rows)
    requires u in w.graph && u !in site.graph
    ensures u in DesiredUnion(site, w, saved, rows)
    ensures var row := DesiredUnion(site, w, saved, rows)[u];
      && row.urn == u && row.kind == w.graph[u].kind && row.parent == w.graph[u].parent
      && row.custom == w.graph[u].custom && row.protect == w.graph[u].protect
      && (row.provider.ProvidedBy? <==> Package(row.kind) in {"aws", "random", "tls"})
      && (row.provider.ProvidedBy? ==>
        && row.provider.urn in w.graph && w.graph[row.provider.urn].kind == Provider(Package(row.kind))
        && (Package(row.kind) == "aws" ==>
          row.provider.urn in Inventory(rows) && row.provider.id == IdOf(Inventory(rows)[row.provider.urn])))
  {
    hide TopologyAccepts, NewRow, Union;
    AcceptedNewRow(site, w, steps, maybeCorrupt, saved, rows, u);
    NewRowLinked(site, w, u, saved.plans[u], ProviderId(site, Inventory(rows)));
  }

  /** A new secret version shows its text only as hidden or not known yet. */
  lemma {:induction false} SecretTextHidden(
    site: Site, w: Workload, steps: seq<Shown>, maybeCorrupt: bool, saved: SavedPlan, rows: seq<Row>, i: nat)
    returns (shown: Members)
    requires TopologyAccepts(site, w, steps, maybeCorrupt, saved, rows) && i < |steps|
    requires steps[i].step.urn !in site.graph && steps[i].step.newState.kind == w.secretVersion
    ensures Print(Obj(steps[i].step.newState.inputs)) == Print(Obj(shown))
    ensures SECRET_STRING in shown && shown[SECRET_STRING] in {SECRET, UNKNOWN_VALUE}
  {
    hide TopologyAccepts, NewRow, Union, Print;
    var u, step := steps[i].step.urn, steps[i].step;
    ShownCreation(site, w, steps, maybeCorrupt, saved, rows, i);
    AcceptedNewRow(site, w, steps, maybeCorrupt, saved, rows, u);
    NewRowLinked(site, w, u, saved.plans[u], ProviderId(site, Inventory(rows)));
    shown := HiddenText(DesiredUnion(site, w, saved, rows)[u].inputs);
  }

  lemma {:induction false} HiddenText(inputs: Members) returns (shown: Members)
    requires Redact(Obj(inputs)).Some? && SecretInputs(inputs)
    ensures Redact(Obj(inputs)).value == Obj(shown)
    ensures SECRET_STRING in shown && shown[SECRET_STRING] in {SECRET, UNKNOWN_VALUE}
  {
    assert |SECRET_ID| == 8 && |SECRET_STRING| == 12 && |MARKER| == 32;
    shown := Redact(Obj(inputs)).value.members;
    assert Redact(inputs[SECRET_STRING]).Some?;
  }

  lemma {:induction false} ShownCreation(
    site: Site, w: Workload, steps: seq<Shown>, maybeCorrupt: bool, saved: SavedPlan, rows: seq<Row>, i: nat)
    requires TopologyAccepts(site, w, steps, maybeCorrupt, saved, rows) && i < |steps|
    requires steps[i].step.urn !in site.graph
    ensures steps[i].step.urn in w.graph && steps[i].step.urn in DesiredUnion(site, w, saved, rows)
    ensures CreationShown(steps[i].step, DesiredUnion(site, w, saved, rows)[steps[i].step.urn])
  {
    hide Accepts, PriorOk, NewRow, Closed, NewRowsOk, Union, CreationShown;
    PriorParts(site, rows);
    assert WorkloadStepOk(site, w, DesiredUnion(site, w, saved, rows), steps[i].step);
  }

  /** A shown creation reveals no secret: its inputs print like a value without wrappers. */
  lemma {:induction false} CreationHidesSecrets(step: Step, want: Row) returns (shown: Value)
    requires CreationShown(step, want)
    ensures Unmarked(shown) && Print(Obj(step.newState.inputs)) == Print(shown)
    ensures forall other: Members ::
      AgreeOutsideSecrets(Obj(want.inputs), Obj(other)) ==> Redact(Obj(other)) == Some(shown)
  {
    hide Print;
    shown := Redact(Obj(want.inputs)).value;
    RedactUnmarks(Obj(want.inputs));
    forall other: Members | AgreeOutsideSecrets(Obj(want.inputs), Obj(other))
      ensures Redact(Obj(other)) == Some(shown)
    {
      RedactHidesSecrets(Obj(want.inputs), Obj(other));
    }
  }

  // ---------------------------------------------------------------- replay

  /** Replaying the plan: the registry part as ever, and every new row with the values its goal knows. */
  predicate TopologyReplays(site: Site, w: Workload, saved: SavedPlan, rows: seq<Row>, after: Rows)
  {
    var prior, plans := Inventory(rows), Restricted(saved.plans, site.graph.Keys);
    var wanted := DesiredUnion(site, w, saved, rows);
    && after.Keys == w.graph.Keys
    && Replays(site, prior, DesiredRows(site, plans, prior), map u | u in after && u in site.graph :: after[u])
    && forall u :: u in w.graph && u !in site.graph ==>
      u in after && u in wanted && Created(wanted[u], after[u])
  }

  predicate WorkloadReplay(
    site: Site, w: Workload, steps: seq<Shown>, maybeCorrupt: bool, saved: SavedPlan, rows: seq<Row>, after: Rows)
  {
    TopologyAccepts(site, w, steps, maybeCorrupt, saved, rows) && TopologyReplays(site, w, saved, rows, after)
  }

  ghost predicate WorkloadStepped(site: Site, w: Workload, before: Rows, after: Rows) {
    exists steps, maybeCorrupt, saved, rows ::
      WorkloadReplay(site, w, steps, maybeCorrupt, saved, rows, after)
      && DistinctUrns(rows) && Inventory(rows) == before
  }

  lemma {:induction false} ReplayKeeps(
    site: Site, w: Workload, steps: seq<Shown>, maybeCorrupt: bool, saved: SavedPlan, rows: seq<Row>, after: Rows,
    u: Urn)
    requires WellFormed(site) && WorkloadReplay(site, w, steps, maybeCorrupt, saved, rows, after)
    ensures DistinctUrns(rows) && Inventory(rows).Keys == site.graph.Keys && after.Keys == w.graph.Keys
    ensures u in site.graph && u in after ==> Keeps(site, Inventory(rows)[u], after[u])
    ensures !Hardened(site, Inventory(rows), u)
  {
    hide PriorOk, TopologyAccepts, GoalsOk, PreviewOk, Keeps, Hardened, NewRowsOk, Created, WellFormed, StateOk, Union;
    RegistryPart(site, w, steps, maybeCorrupt, saved, rows);
    CompleteNotLegacy(site, rows);
    if u in site.graph && u in after {
      PartKeeps(site, w, saved, rows, after, u);
    }
  }

  lemma {:induction false} PartKeeps(site: Site, w: Workload, saved: SavedPlan, rows: seq<Row>, after: Rows, u: Urn)
    requires DistinctUrns(rows) && site.provider in Inventory(rows) && Inventory(rows).Keys == site.graph.Keys
    requires NewRowsOk(site, w, saved.plans, ProviderId(site, Inventory(rows)))
    requires GoalsOk(site, Restricted(saved.plans, site.graph.Keys), Inventory(rows))
    requires TopologyReplays(site, w, saved, rows, after)
    requires u in site.graph && u in after && u in saved.plans && !Hardened(site, Inventory(rows), u)
    ensures Keeps(site, Inventory(rows)[u], after[u])
  {
    hide Keeps, Hardened, GoalsOk, NewRowsOk, Replays, Created;
    var part := map v | v in after && v in site.graph :: after[v];
    PlanRetains(site, Restricted(saved.plans, site.graph.Keys), Inventory(rows), part, u);
  }

  /** An accepted workload plan, carried out, leaves every observed row in place as it was. */
  lemma {:induction false} WorkloadKeeps(site: Site, w: Workload, before: Rows, after: Rows)
    requires WellFormed(site) && Includes(w, site) && WorkloadStepped(site, w, before, after)
    ensures before.Keys == site.graph.Keys && after.Keys == w.graph.Keys
    ensures KeepsRows(site, before, after) && forall u :: !Hardened(site, before, u)
  {
    hide WorkloadReplay, Keeps, PriorOk, WellFormed, Hardened;
    var steps, maybeCorrupt, saved, rows :|
      WorkloadReplay(site, w, steps, maybeCorrupt, saved, rows, after)
      && DistinctUrns(rows) && Inventory(rows) == before;
    ReplayKeeps(site, w, steps, maybeCorrupt, saved, rows, after, site.provider);
    forall u ensures !Hardened(site, before, u) && (u in before ==> u in after && Keeps(site, before[u], after[u])) {
      ReplayKeeps(site, w, steps, maybeCorrupt, saved, rows, after, u);
    }
  }

  /** From the first registry plan to the workload: nothing observed on the way is lost or changes owner. */
  lemma {:induction false} HistoryThenWorkload(
    site: Site, w: Workload, requireRefresh: bool, states: seq<Rows>, i: nat, after: Rows)
    requires WellFormed(site) && Includes(w, site) && History(site, requireRefresh, states) && i < |states| - 1
    requires WorkloadStepped(site, w, states[|states| - 1], after)
    ensures after.Keys == w.graph.Keys && KeepsRows(site, states[i], after)
  {
    hide History, WorkloadStepped, Hardened, KeepsRows;
    var last := states[|states| - 1];
    HistoryKeeps(site, requireRefresh, states, i, |states| - 1);
    WorkloadKeeps(site, w, last, after);
    KeptTwice(site, states[i], last, after);
  }
}
