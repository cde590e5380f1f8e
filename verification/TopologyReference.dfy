/**
 The first-workload gate once more, as one statement about rows, plans and preview: what
 scripts/poc_workload_topology.py lets pass, in the names the documents use.
 */
module TopologyReference {
  import opened Options
  import opened Texts
  import opened Json
  import opened CanonicalJson
  import opened RegistryRows
  import opened Redaction
  import opened RegistryPlan
  import opened RegistryRecheck
  import opened RegistryRowsReference
  import opened RegistryReference
  import opened RegistryProperties
  import opened Topology
  import opened TopologyProperties

  // ---------------------------------------------------------------- secrets

  /** The engine's secret wrapper. */
  predicate Marked(m: Members) {
    && T("4dabf18193072939515e22adb298388d") in m
    && m[T("4dabf18193072939515e22adb298388d")] == Str(T("1b47061264138c4ac30d75fd1eb44270"))
  }

  /** `shown` is `v` with every wrapper, in one of its two shapes, replaced by `[secret]`. */
  predicate Hides(v: Value, shown: Value) {
    match v
    case Obj(m) =>
      if Marked(m) then
        && shown == Str(T("[secret]"))
        && (m.Keys == {T("4dabf18193072939515e22adb298388d"), T("value")}
            || m.Keys == {T("4dabf18193072939515e22adb298388d"), T("ciphertext")})
      else
        && shown.Obj? && shown.members.Keys == m.Keys
        && forall k :: k in m ==> Hides(m[k], shown.members[k])
    case Arr(items) =>
      shown.Arr? && |shown.items| == |items| && forall i :: 0 <= i < |items| ==> Hides(items[i], shown.items[i])
    case _ => shown == v
  }

  lemma {:induction false} RedactHides(v: Value)
    requires Redact(v).Some?
    ensures Hides(v, Redact(v).value)
  {
    match v
    case Obj(m) =>
      if !Envelope(m) {
        forall k | k in m ensures Hides(m[k], Redact(v).value.members[k]) {
          RedactHides(m[k]);
        }
      }
    case Arr(items) =>
      forall i | 0 <= i < |items| ensures Hides(items[i], Redact(v).value.items[i]) {
        RedactHides(items[i]);
      }
    case _ =>
  }

  lemma {:induction false} HidesRedacts(v: Value, shown: Value)
    requires Hides(v, shown)
    ensures Redact(v) == Some(shown)
  {
    match v
    case Obj(m) =>
      if !Envelope(m) {
        forall k | k in m ensures Redact(m[k]) == Some(shown.members[k]) {
          HidesRedacts(m[k], shown.members[k]);
        }
        assert Redact(v).value.members == shown.members;
      }
    case Arr(items) =>
      forall i | 0 <= i < |items| ensures Redact(items[i]) == Some(shown.items[i]) {
        HidesRedacts(items[i], shown.items[i]);
      }
      assert seq(|items|, i requires 0 <= i < |items| => Redact(items[i]).value) == shown.items;
    case _ =>
  }

  /** Redaction succeeds with exactly this result. */
  lemma {:induction false} HidesExactly(v: Value, shown: Value)
    ensures Redact(v) == Some(shown) <==> Hides(v, shown)
  {
    hide Redact, Hides;
    if Redact(v).Some? {
      RedactHides(v);
    }
    if Hides(v, shown) {
      HidesRedacts(v, shown);
    }
  }

  // ---------------------------------------------------------------- new resources

  predicate FromPackage(kind: Kind, package: string) {
    match kind
    case Ecr => package == "aws"
    case Ses => package == "aws"
    case Dns => package == "aws"
    case Other(p, _) => package == p
    case _ => false
  }

  /** AWS resources belong to the observed provider; others to a new one of their package, which has no id yet. */
  predicate OwnProvider(site: Site, w: Workload, kind: Kind, link: Reference, providerId: Text) {
    if FromPackage(kind, "aws") then link == ProvidedBy(site.provider, providerId)
    else if FromPackage(kind, "random") then NewProvider(w, link, "random")
    else if FromPackage(kind, "tls") then NewProvider(w, link, "tls")
    else link == NoProvider
  }

  predicate NewProvider(w: Workload, link: Reference, package: string) {
    && link.ProvidedBy? && link.id == T("04da6b54-80e4-46f7-96ec-b56ff0331ba9")
    && link.urn in w.graph && w.graph[link.urn].kind == Provider(package)
  }

  predicate SecretText(v: Value) {
    v == Str(T("04da6b54-80e4-46f7-96ec-b56ff0331ba9")) || (v.Obj? && Marked(v.members))
  }

  /** No wrapper is malformed. */
  ghost predicate Showable(inputs: Members) {
    exists shown :: Hides(Obj(inputs), shown)
  }

  /** What the plan of a new resource asks for is `row`. */
  ghost predicate Creates(site: Site, w: Workload, u: Urn, plan: ResourcePlan, providerId: Text, row: Row) {
    && plan.steps == [Create] && plan.seed == Some(32) && u in w.graph
    && row.urn == u && row.kind == w.graph[u].kind && row.parent == w.graph[u].parent
    && row.custom == w.graph[u].custom && row.protect == w.graph[u].protect
    && var goal := plan.goal;
    && goal.name == w.graph[u].name && !goal.overridden
    && goal.kind == row.kind && goal.parent == row.parent && goal.custom == row.custom && goal.protect == row.protect
    && row.provider == goal.provider && OwnProvider(site, w, row.kind, row.provider, providerId)
    && row.id == None && !row.flagged
    && Patched(goal.inputDiff, map[], row.inputs) && Patched(goal.outputDiff, map[], row.outputs)
    && row.dependencies == goal.dependencies && row.propertyDependencies == goal.propertyDependencies
    && row.secretOutputs == goal.secretOutputs
    && (row.kind == w.secretVersion ==>
      row.inputs.Keys == {T("secretId"), T("secretString")} && SecretText(row.inputs[T("secretString")])
      && row.secretOutputs == w.secretVersionOutputs)
    && Showable(row.inputs)
  }

  lemma {:induction false} PackageExactly(kind: Kind)
    ensures Package(kind) == "aws" <==> FromPackage(kind, "aws")
    ensures Package(kind) == "random" <==> FromPackage(kind, "random")
    ensures Package(kind) == "tls" <==> FromPackage(kind, "tls")
  {
  }

  lemma {:induction false} OwnProviderExactly(site: Site, w: Workload, kind: Kind, link: Reference, providerId: Text)
    ensures OwnProvider(site, w, kind, link, providerId) <==> ProviderLinkOk(site, w, kind, link, providerId)
  {
    PackageExactly(kind);
    hide FromPackage;
  }

  lemma {:induction false} SecretNames()
    ensures SECRET_ID != SECRET_STRING
  {
    assert |SECRET_ID| == 8 && |SECRET_STRING| == 12;
  }

  lemma {:induction false} ShowableExactly(inputs: Members)
    ensures Redact(Obj(inputs)).Some? <==> Showable(inputs)
  {
    forall shown ensures Redact(Obj(inputs)) == Some(shown) <==> Hides(Obj(inputs), shown) {
      HidesExactly(Obj(inputs), shown);
    }
    hide Redact, Hides;
    if Redact(Obj(inputs)).Some? {
      assert Hides(Obj(inputs), Redact(Obj(inputs)).value);
    }
  }

  lemma {:induction false} RowCreates(site: Site, w: Workload, u: Urn, plan: ResourcePlan, id: Text)
    requires NewRow(site, w, u, plan, id).Some?
    ensures Creates(site, w, u, plan, id, NewRow(site, w, u, plan, id).value)
  {
    hide Redact, Hides, ProviderLinkOk, OwnProvider, ApplyDiff, Patched;
    var row := NewRow(site, w, u, plan, id).value;
    SecretNames();
    OwnProviderExactly(site, w, row.kind, row.provider, id);
    ShowableExactly(row.inputs);
    PatchedExactly(plan.goal.inputDiff, map[], row.inputs);
    PatchedExactly(plan.goal.outputDiff, map[], row.outputs);
  }

  lemma {:induction false} CreatedRow(site: Site, w: Workload, u: Urn, plan: ResourcePlan, id: Text, row: Row)
    requires Creates(site, w, u, plan, id, row)
    ensures NewRow(site, w, u, plan, id) == Some(row)
  {
    hide Redact, Hides, ProviderLinkOk, OwnProvider, ApplyDiff, Patched;
    SecretNames();
    OwnProviderExactly(site, w, row.kind, row.provider, id);
    ShowableExactly(row.inputs);
    PatchedExactly(plan.goal.inputDiff, map[], row.inputs);
    PatchedExactly(plan.goal.outputDiff, map[], row.outputs);
    var goal := plan.goal;
    assert GoalValues(site, goal, None, false) == Some((row.inputs, row.outputs));
    assert row == Row(u, goal.kind, goal.custom, goal.parent, goal.provider, None, goal.protect, false, row.inputs,
                      row.outputs, goal.dependencies, goal.propertyDependencies, goal.secretOutputs);
  }

  lemma {:induction false} CreatesExactly(site: Site, w: Workload, u: Urn, plan: ResourcePlan, id: Text, row: Row)
    ensures NewRow(site, w, u, plan, id) == Some(row) <==> Creates(site, w, u, plan, id, row)
  {
    hide NewRow, Creates;
    if NewRow(site, w, u, plan, id).Some? {
      RowCreates(site, w, u, plan, id);
    }
    if Creates(site, w, u, plan, id, row) {
      CreatedRow(site, w, u, plan, id, row);
    }
  }

  // ---------------------------------------------------------------- the registry part of the preview

  /** A step of a stack or environment component that leaves its outputs out shows the observed ones. */
  function Completed(shown: Shown, was: Row): Step {
    if !shown.outputsShown && (was.kind == Stack || was.kind == Environment)
    then shown.step.(newState := shown.step.newState.(outputs := was.outputs))
    else shown.step
  }

  /** `part` are the steps at the positions `at`, which are those of observed resources, in order. */
  predicate PartAt(steps: seq<Shown>, prior: Rows, part: seq<Step>, at: seq<nat>) {
    && |at| == |part|
    && (forall k, l :: 0 <= k < l < |at| ==> at[k] < at[l])
    && (forall k :: 0 <= k < |at| ==> IsPart(steps, prior, part[k], at[k]))
    && (forall i: nat :: i < |steps| && steps[i].step.urn in prior ==> i in at)
  }

  predicate IsPart(steps: seq<Shown>, prior: Rows, step: Step, i: nat) {
    i < |steps| && steps[i].step.urn in prior && step == Completed(steps[i], prior[steps[i].step.urn])
  }

  lemma {:induction false} PartFound(steps: seq<Shown>, prior: Rows) returns (at: seq<nat>)
    ensures PartAt(steps, prior, RegistrySteps(steps, prior), at)
  {
    if steps == [] {
      at := [];
    } else {
      var n := |steps| - 1;
      var front := PartFound(steps[..n], prior);
      assert forall i :: 0 <= i < n ==> steps[..n][i] == steps[i];
      at := if steps[n].step.urn in prior then front + [n] else front;
      forall k | 0 <= k < |at| ensures IsPart(steps, prior, RegistrySteps(steps, prior)[k], at[k]) {
        if k < |front| {
          assert IsPart(steps[..n], prior, RegistrySteps(steps[..n], prior)[k], front[k]);
        }
      }
      forall i: nat | i < |steps| && steps[i].step.urn in prior ensures i in at {
        if i < n {
          assert i in front;
        } else {
          assert at[|at| - 1] == n;
        }
      }
    }
  }

  lemma {:induction false} PartUnique(steps: seq<Shown>, prior: Rows, part: seq<Step>, at: seq<nat>)
    requires PartAt(steps, prior, part, at)
    ensures part == RegistrySteps(steps, prior)
  {
    var first := if |at| > 0 then at[0] else 0;
    if steps != [] {
      var n := |steps| - 1;
      assert forall i :: 0 <= i < n ==> steps[..n][i] == steps[i];
      if steps[n].step.urn in prior {
        LastIsLast(steps, prior, part, at);
        var m := |at| - 1;
        forall k | 0 <= k < m ensures IsPart(steps[..n], prior, part[..m][k], at[..m][k]) {
          assert IsPart(steps, prior, part[k], at[k]);
        }
        forall i: nat | i < n && steps[..n][i].step.urn in prior ensures i in at[..m] {
          assert i in at && at[m] != i;
        }
        PartUnique(steps[..n], prior, part[..m], at[..m]);
        assert part == part[..m] + [part[m]];
      } else {
        forall k | 0 <= k < |at| ensures IsPart(steps[..n], prior, part[k], at[k]) {
          assert IsPart(steps, prior, part[k], at[k]);
        }
        PartUnique(steps[..n], prior, part, at);
      }
    }
  }

  lemma {:induction false} LastIsLast(steps: seq<Shown>, prior: Rows, part: seq<Step>, at: seq<nat>)
    requires PartAt(steps, prior, part, at) && steps != [] && steps[|steps| - 1].step.urn in prior
    ensures |at| > 0 && at[|at| - 1] == |steps| - 1
    ensures part[|at| - 1] == Restored(steps[|steps| - 1], prior)
  {
    var n: nat := |steps| - 1;
    assert n in at;
    var k :| 0 <= k < |at| && at[k] == n;
    assert IsPart(steps, prior, part[|at| - 1], at[|at| - 1]);
  }

  // ---------------------------------------------------------------- creations

  predicate NotYet(id: Option<Text>) {
    id == None || id == Some([]) || id == Some(T("04da6b54-80e4-46f7-96ec-b56ff0331ba9"))
  }

  /** The step shows the creation of the row, its secrets hidden. */
  ghost predicate ShowsCreation(step: Step, want: Row) {
    && step.op == Create && step.oldState == None && !step.explained
    && var new_ := step.newState;
    && new_.urn == want.urn && new_.kind == want.kind && new_.custom == want.custom && new_.parent == want.parent
    && new_.provider == want.provider && new_.protect == want.protect && NotYet(new_.id) && !new_.flagged
    && new_.dependencies == want.dependencies && new_.propertyDependencies == want.propertyDependencies
    && new_.secretOutputs == want.secretOutputs
    && exists shown :: HiddenInputs(new_.inputs, want.inputs, shown)
  }

  predicate HiddenInputs(displayed: Members, inputs: Members, shown: Value) {
    Hides(Obj(inputs), shown) && Print(Obj(displayed)) == Print(shown)
  }

  lemma {:induction false} CreationExactly(step: Step, want: Row)
    ensures ShowsCreation(step, want) <==> CreationShown(step, want)
  {
    hide Redact, Hides, Print;
    forall shown ensures Redact(Obj(want.inputs)) == Some(shown) <==> Hides(Obj(want.inputs), shown) {
      HidesExactly(Obj(want.inputs), shown);
    }
    if CreationShown(step, want) {
      assert HiddenInputs(step.newState.inputs, want.inputs, Redact(Obj(want.inputs)).value);
    }
  }

  // ---------------------------------------------------------------- the gate

  predicate NoneShownTwice(steps: seq<Shown>) {
    forall i, j :: 0 <= i < j < |steps| ==> steps[i].step.urn != steps[j].step.urn
  }

  predicate IsShown(steps: seq<Shown>, u: Urn) {
    exists i :: 0 <= i < |steps| && steps[i].step.urn == u
  }

  /** Steps of different resources of the whole; new ones are creations, all of them but the providers' shown. */
  ghost predicate ShowsWorkload(site: Site, w: Workload, desired: Rows, steps: seq<Shown>) {
    && NoneShownTwice(steps)
    && (forall i :: 0 <= i < |steps| ==> steps[i].step.urn in w.graph)
    && (forall i :: 0 <= i < |steps| && steps[i].step.urn !in site.graph ==>
      steps[i].step.urn in desired && ShowsCreation(steps[i].step, desired[steps[i].step.urn]))
    && (forall u :: u in w.graph && u !in site.graph && !w.graph[u].kind.Provider? ==> IsShown(steps, u))
  }

  lemma {:induction false} ShowsExactly(site: Site, w: Workload, desired: Rows, steps: seq<Shown>)
    ensures ShowsWorkload(site, w, desired, steps) <==>
      ShownOk(site, w, desired, steps) && Required(site, w) <= ShownUrns(steps)
  {
    hide CreationShown, ShowsCreation;
    forall i | 0 <= i < |steps| && steps[i].step.urn in desired
      ensures ShowsCreation(steps[i].step, desired[steps[i].step.urn]) <==>
              CreationShown(steps[i].step, desired[steps[i].step.urn])
    {
      CreationExactly(steps[i].step, desired[steps[i].step.urn]);
    }
    RequiredExactly(site, w, steps);
    hide ShownUrns, Required, IsShown;
  }

  lemma {:induction false} RequiredExactly(site: Site, w: Workload, steps: seq<Shown>)
    ensures Required(site, w) <= ShownUrns(steps) <==>
      forall u :: u in w.graph && u !in site.graph && !w.graph[u].kind.Provider? ==> IsShown(steps, u)
  {
    forall u ensures u in ShownUrns(steps) <==> IsShown(steps, u) {
    }
    hide ShownUrns, IsShown;
    assert forall u :: u in Required(site, w) <==> u in w.graph && u !in site.graph && !w.graph[u].kind.Provider?;
  }

  /** Parents and dependencies are other resources of the whole. */
  predicate Within(row: Row, rows: Rows) {
    && (row.parent == "" || row.parent in rows)
    && NamesOthers(row.dependencies, rows, row.urn)
    && (forall i, j :: 0 <= i < j < |row.dependencies| ==> row.dependencies[i] != row.dependencies[j])
    && (forall k :: k in row.propertyDependencies ==>
      k in row.inputs && NamesOthers(row.propertyDependencies[k], rows, row.urn))
  }

  lemma {:induction false} WithinExactly(row: Row, rows: Rows)
    ensures Within(row, rows) <==> Closed(row, rows.Keys)
  {
    hide NamesOthers, OthersOf;
    OthersExactly(row.dependencies, rows, row.urn);
    forall k | k in row.propertyDependencies
      ensures NamesOthers(row.propertyDependencies[k], rows, row.urn) <==>
              OthersOf(row.propertyDependencies[k], rows.Keys, row.urn)
    {
      OthersExactly(row.propertyDependencies[k], rows, row.urn);
    }
  }

  /** The rows the plan leads to: the observed ones as they are, and what the plans of the new resources ask for. */
  ghost predicate Adds(site: Site, w: Workload, plans: Plans, prior: Rows, providerId: Text, desired: Rows) {
    && (forall u :: u in desired <==> u in w.graph) && (forall u :: u in prior ==> u in w.graph)
    && (forall u :: u in prior ==> desired[u] == prior[u])
    && forall u :: u in w.graph && u !in prior ==> u in plans && Creates(site, w, u, plans[u], providerId, desired[u])
  }

  lemma {:induction false} AddsExactly(
    site: Site, w: Workload, plans: Plans, prior: Rows, providerId: Text, desired: Rows)
    requires prior.Keys == site.graph.Keys <= w.graph.Keys && plans.Keys == w.graph.Keys
    ensures Adds(site, w, plans, prior, providerId, desired) <==>
      NewRowsOk(site, w, plans, providerId) && desired == Union(site, w, plans, prior, providerId)
  {
    hide NewRow, Creates;
    forall u | u in plans && u in desired
      ensures Creates(site, w, u, plans[u], providerId, desired[u]) <==>
              NewRow(site, w, u, plans[u], providerId) == Some(desired[u])
    {
      CreatesExactly(site, w, u, plans[u], providerId, desired[u]);
    }
    if Adds(site, w, plans, prior, providerId, desired) {
      assert desired.Keys == w.graph.Keys;
    }
  }

  /** The plans of the registry's resources. */
  ghost predicate RegistryPlans(plans: Plans, graph: Graph, part: Plans) {
    && (forall u :: u in part <==> u in plans && u in graph)
    && (forall u :: u in part ==> part[u] == plans[u])
  }

  /** What the gate lets pass, given the registry's part of preview and plans and the rows the plan leads to. */
  ghost predicate ExtendsRegistry(
    site: Site, w: Workload, steps: seq<Shown>, maybeCorrupt: bool, saved: SavedPlan, rows: seq<Row>, part: seq<Step>,
    plans: Plans, desired: Rows)
  {
    var prior := Inventory(rows);
    && (exists at :: PartAt(steps, prior, part, at)) && RegistryPlans(saved.plans, site.graph, plans)
    && Coherent(site, Preview(part, maybeCorrupt), SavedPlan(saved.pinnedManifest, plans), rows, false)
    && (forall u :: u in prior <==> u in site.graph) && (forall u :: u in saved.plans <==> u in w.graph)
    && site.provider in prior
    && Adds(site, w, saved.plans, prior, IdOf(prior[site.provider]), desired)
    && (forall u :: u in desired ==> Within(desired[u], desired))
    && ShowsWorkload(site, w, desired, steps)
  }

  lemma {:induction false} PartExactly(steps: seq<Shown>, prior: Rows, part: seq<Step>)
    ensures (exists at :: PartAt(steps, prior, part, at)) <==> part == RegistrySteps(steps, prior)
  {
    hide PartAt, RegistrySteps;
    var at := PartFound(steps, prior);
    if at' :| PartAt(steps, prior, part, at') {
      PartUnique(steps, prior, part, at');
    }
  }

  lemma {:induction false} PlansExactly(plans: Plans, graph: Graph, part: Plans)
    ensures RegistryPlans(plans, graph, part) <==> part == Restricted(plans, graph.Keys)
  {
  }

  lemma {:induction false} ExtendsExactly(
    site: Site, w: Workload, steps: seq<Shown>, maybeCorrupt: bool, saved: SavedPlan, rows: seq<Row>, part: seq<Step>,
    plans: Plans, desired: Rows)
    requires WellFormed(site)
    ensures ExtendsRegistry(site, w, steps, maybeCorrupt, saved, rows, part, plans, desired) <==>
      && part == RegistrySteps(steps, Inventory(rows)) && plans == Restricted(saved.plans, site.graph.Keys)
      && TopologyAccepts(site, w, steps, maybeCorrupt, saved, rows)
      && desired == DesiredUnion(site, w, saved, rows)
  {
    hide Coherent, Accepts, Adds, Within, ShowsWorkload, PartAt, RegistryPlans, Closed, ShownOk, Required, ShownUrns;
    hide Union, NewRowsOk, PriorOk, Inventory, RegistrySteps, Restricted, WellFormed;
    var prior := Inventory(rows);
    PartExactly(steps, prior, part);
    PlansExactly(saved.plans, site.graph, plans);
    AcceptsExactly(site, Preview(part, maybeCorrupt), SavedPlan(saved.pinnedManifest, plans), rows, false);
    if Accepts(site, Preview(part, maybeCorrupt), SavedPlan(saved.pinnedManifest, plans), rows, false) {
      AcceptedParts(site, Preview(part, maybeCorrupt), SavedPlan(saved.pinnedManifest, plans), rows);
    }
    ShowsExactly(site, w, desired, steps);
    forall u | u in desired ensures Within(desired[u], desired) <==> Closed(desired[u], desired.Keys) {
      WithinExactly(desired[u], desired);
    }
    RestrictedKeys(saved.plans, site.graph.Keys);
    if prior.Keys == site.graph.Keys <= w.graph.Keys && saved.plans.Keys == w.graph.Keys {
      AddsExactly(site, w, saved.plans, prior, ProviderId(site, prior), desired);
    }
  }

  lemma {:induction false} AcceptedParts(site: Site, preview: Preview, saved: SavedPlan, rows: seq<Row>)
    requires Accepts(site, preview, saved, rows, false)
    ensures PriorOk(site, rows) && saved.plans.Keys == site.graph.Keys
  {
    hide PriorOk, GoalsOk, DesiredOk, PreviewOk;
  }

  lemma {:induction false} RestrictedKeys(plans: Plans, urns: set<Urn>)
    ensures Restricted(plans, urns).Keys == plans.Keys * urns
  {
  }

  /** The gate passes exactly when the plan extends the registry so. */
  lemma {:induction false} FirstWorkloadExactly(
    site: Site, w: Workload, steps: seq<Shown>, maybeCorrupt: bool, saved: SavedPlan, rows: seq<Row>)
    requires WellFormed(site)
    ensures TopologyAccepts(site, w, steps, maybeCorrupt, saved, rows) <==> exists part, plans, desired ::
      ExtendsRegistry(site, w, steps, maybeCorrupt, saved, rows, part, plans, desired)
  {
    hide TopologyAccepts, ExtendsRegistry, DesiredUnion, RegistrySteps, Inventory, Restricted, WellFormed;
    if part, plans, desired :| ExtendsRegistry(site, w, steps, maybeCorrupt, saved, rows, part, plans, desired) {
      ExtendsExactly(site, w, steps, maybeCorrupt, saved, rows, part, plans, desired);
    }
    if TopologyAccepts(site, w, steps, maybeCorrupt, saved, rows) {
      ExtendsExactly(
        site, w, steps, maybeCorrupt, saved, rows, RegistrySteps(steps, Inventory(rows)),
        Restricted(saved.plans, site.graph.Keys), DesiredUnion(site, w, saved, rows));
    }
  }
}
