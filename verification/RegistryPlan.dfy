/**
 The registry plan gate (scripts/poc_registry_plan.py): whether one saved plan and its preview may be
 replayed on one observed list of resource rows.
 */
module RegistryPlan {
  import opened Options
  import opened Texts
  import opened Json
  import opened RegistryRows

  // ---------------------------------------------------------------- observed rows

  /** The row is the provider of the legacy checkpoint. */
  predicate LegacyProvider(site: Site, row: Row) {
    row.kind == AWS_PROVIDER && SameMembers(row.inputs, LegacyInputs(site))
  }

  predicate IsLegacy(site: Site, rows: seq<Row>) {
    exists i :: 0 <= i < |rows| && LegacyProvider(site, rows[i])
  }

  function Urns(rows: seq<Row>): set<Urn> {
    set i | 0 <= i < |rows| :: rows[i].urn
  }

  predicate DistinctUrns(rows: seq<Row>) {
    forall i, j :: 0 <= i < j < |rows| ==> rows[i].urn != rows[j].urn
  }

  /** The rows by URN, the last of each. */
  function Inventory(rows: seq<Row>): (m: Rows)
    ensures m.Keys == Urns(rows)
    ensures DistinctUrns(rows) ==> forall i :: 0 <= i < |rows| ==> m[rows[i].urn] == rows[i]
  {
    if rows == [] then map[]
    else
      var front, last := rows[..|rows| - 1], rows[|rows| - 1];
      UrnsStep(rows);
      Inventory(front)[last.urn := last]
  }

  lemma {:induction false} UrnsStep(rows: seq<Row>)
    requires rows != []
    ensures var front, last := rows[..|rows| - 1], rows[|rows| - 1];
      && Urns(rows) == Urns(front) + {last.urn}
      && (DistinctUrns(rows) ==> DistinctUrns(front) && last.urn !in Urns(front))
  {
    assert forall i :: 0 <= i < |rows| - 1 ==> rows[..|rows| - 1][i] == rows[i];
  }

  predicate ProviderIdKnown(site: Site, rows: Rows) {
    site.provider in rows ==>
      rows[site.provider].id.Some? && rows[site.provider].id.value != [] && rows[site.provider].id.value != UNKNOWN
  }

  function ProviderId(site: Site, rows: Rows): Text {
    if site.provider in rows then IdOf(rows[site.provider]) else UNKNOWN
  }

  predicate Unique<T(==)>(s: seq<T>) {
    forall i, j :: 0 <= i < j < |s| ==> s[i] != s[j]
  }

  predicate OthersOf(links: seq<Urn>, urns: set<Urn>, urn: Urn) {
    forall u :: u in links ==> u in urns && u != urn
  }

  /** Every parent, dependency and property dependency of `row` is another resource of `urns`. */
  predicate Closed(row: Row, urns: set<Urn>) {
    && (row.parent == "" || row.parent in urns)
    && Unique(row.dependencies)
    && OthersOf(row.dependencies, urns, row.urn)
    && row.propertyDependencies.Keys <= row.inputs.Keys
    && (forall k :: k in row.propertyDependencies ==> OthersOf(row.propertyDependencies[k], urns, row.urn))
  }

  /** `_references`. */
  predicate ReferencesOk(site: Site, row: Row, urns: set<Urn>, providerId: Text) {
    && Closed(row, urns)
    && row.provider == (if row.kind in {Ecr, Ses, Dns} then ProvidedBy(site.provider, providerId) else NoProvider)
  }

  predicate AllReferencesOk(site: Site, rows: Rows, providerId: Text) {
    forall u :: u in rows ==> ReferencesOk(site, rows[u], rows.Keys, providerId)
  }

  function OfKind(rows: Rows, kind: Kind): set<Urn> {
    set u | u in rows && rows[u].kind == kind
  }

  /** `validate_bindings`: each DKIM record carries the token of its index. */
  predicate BindingsOk(site: Site, rows: Rows) {
    var identities, records := OfKind(rows, Ses), OfKind(rows, Dns);
    if identities == {} then records == {}
    else
      && |identities| == 1 && |records| == 3
      && forall i, u :: i in identities && u in records ==> RecordBound(site, rows[i], rows[u])
  }

  /** The sorted tokens of an identity that exists; nothing before it does. */
  function IdentityTokens(identity: Row): Option<seq<Option<Text>>> {
    if IdOf(identity) == [] then Some([None, None, None])
    else if DKIM in identity.outputs && identity.outputs[DKIM].Obj? then
      var tokens :- Tokens(Get(identity.outputs[DKIM].members, TOKENS, Null));
      Some([Some(tokens[0]), Some(tokens[1]), Some(tokens[2])])
    else None
  }

  predicate RecordBound(site: Site, identity: Row, record: Row) {
    var tokens := IdentityTokens(identity);
    var inputs := MailCheckedInputs(site, Dns, record.inputs);
    && record.urn in site.graph && site.graph[record.urn].index < 3
    && tokens.Some? && inputs.Some? && |tokens.value| == 3
    && SameMembers(inputs.value, RecordInputs(site, tokens.value[site.graph[record.urn].index]))
    && identity.urn in record.dependencies
    && NAME in record.propertyDependencies && identity.urn in record.propertyDependencies[NAME]
    && T("records") in record.propertyDependencies && identity.urn in record.propertyDependencies[T("records")]
  }

  /** How one observed row is checked; only the legacy snapshot's provider is excused. */
  function RowCheck(site: Site, legacy: bool): Row -> bool {
    (row: Row) => StateOk(site, row, false, legacy && row.kind == AWS_PROVIDER, false)
  }

  predicate AllRows(rows: seq<Row>, check: Row -> bool) {
    forall i :: 0 <= i < |rows| ==> check(rows[i])
  }

  /** What `_prior` requires of the observed rows. */
  predicate PriorOk(site: Site, rows: seq<Row>) {
    && |rows| <= |site.graph|
    && (IsLegacy(site, rows) ==> rows == site.legacyRows && Urns(rows) == site.baseline)
    && AllRows(rows, RowCheck(site, IsLegacy(site, rows)))
    && DistinctUrns(rows)
    && (Urns(rows) <= site.baseline || Urns(rows) == site.graph.Keys)
    && var prior := Inventory(rows);
    && ProviderIdKnown(site, prior)
    && AllReferencesOk(site, prior, ProviderId(site, prior))
    && BindingsOk(site, prior)
  }

  /** Some row is the legacy provider's. */
  method FindLegacy(site: Site, rows: seq<Row>) returns (legacy: bool)
    ensures legacy <==> IsLegacy(site, rows)
  {
    for n := 0 to |rows|
      invariant !IsLegacy(site, rows[..n])
    {
      if LegacyProvider(site, rows[n]) {
        return true;
      }
    }
    assert rows[..|rows|] == rows;
    return false;
  }

  method CheckReferences(site: Site, rows: Rows, providerId: Text) returns (ok: bool)
    ensures ok <==> AllReferencesOk(site, rows, providerId)
  {
    var todo := rows.Keys;
    while todo != {}
      invariant todo <= rows.Keys
      invariant forall u :: u in rows.Keys - todo ==> ReferencesOk(site, rows[u], rows.Keys, providerId)
      decreases |todo|
    {
      var u :| u in todo;
      if !ReferencesOk(site, rows[u], rows.Keys, providerId) {
        return false;
      }
      todo := todo - {u};
    }
    return true;
  }

  /** Adding row `n` to the inventory of those before it. */
  lemma {:induction false} InventoryStep(rows: seq<Row>, n: nat)
    requires n < |rows| && DistinctUrns(rows[..n])
    ensures rows[n].urn in Inventory(rows[..n]) ==> !DistinctUrns(rows)
    ensures rows[n].urn !in Inventory(rows[..n]) ==>
      DistinctUrns(rows[..n + 1]) && Inventory(rows[..n + 1]) == Inventory(rows[..n])[rows[n].urn := rows[n]]
  {
    hide DistinctUrns;
    var next := rows[..n + 1];
    assert next[..n] == rows[..n] && next[n] == rows[n];
    DistinctStep(rows, n);
  }

  lemma {:induction false} DistinctStep(rows: seq<Row>, n: nat)
    requires n < |rows| && DistinctUrns(rows[..n])
    ensures rows[n].urn in Urns(rows[..n]) ==> !DistinctUrns(rows)
    ensures rows[n].urn !in Urns(rows[..n]) ==> DistinctUrns(rows[..n + 1])
  {
  }

  lemma {:induction false} NoRows(check: Row -> bool)
    ensures AllRows([], check) && DistinctUrns([]) && Inventory([]) == map[]
  {
  }

  lemma {:induction false} AllRowsStep(rows: seq<Row>, n: nat, check: Row -> bool)
    requires n < |rows| && AllRows(rows[..n], check)
    ensures AllRows(rows[..n + 1], check) <==> check(rows[n])
    ensures AllRows(rows, check) ==> check(rows[n])
  {
  }

  /** The rows by URN, each acceptable and none listed twice. */
  method CollectRows(rows: seq<Row>, acceptable: Row -> bool) returns (r: Option<Rows>)
    ensures r.Some? <==> AllRows(rows, acceptable) && DistinctUrns(rows)
    ensures r.Some? ==> r.value == Inventory(rows)
  {
    hide Inventory, AllRows, DistinctUrns;
    var result: Rows := map[];
    NoRows(acceptable);
    for n := 0 to |rows|
      invariant AllRows(rows[..n], acceptable)
      invariant DistinctUrns(rows[..n]) && result == Inventory(rows[..n])
    {
      AllRowsStep(rows, n, acceptable);
      InventoryStep(rows, n);
      if !acceptable(rows[n]) {
        return None;
      }
      if rows[n].urn in result {
        return None;
      }
      result := result[rows[n].urn := rows[n]];
    }
    assert rows[..|rows|] == rows;
    return Some(result);
  }

  method Prior(site: Site, rows: seq<Row>) returns (r: Option<Rows>)
    ensures r.Some? <==> PriorOk(site, rows)
    ensures r.Some? ==> r.value == Inventory(rows)
  {
    if |rows| > |site.graph| {
      return None;
    }
    var legacy := FindLegacy(site, rows);
    if legacy && !(rows == site.legacyRows && Urns(rows) == site.baseline) {
      return None;
    }
    r := CollectRows(rows, RowCheck(site, legacy));
    if r.None? {
      return None;
    }
    var result := r.value;
    if !(result.Keys <= site.baseline || result.Keys == site.graph.Keys) || !ProviderIdKnown(site, result) {
      return None;
    }
    var closed := CheckReferences(site, result, ProviderId(site, result));
    if !closed || !BindingsOk(site, result) {
      return None;
    }
  }

  // ---------------------------------------------------------------- goals

  /** A goal's change of an input or output map; an absent part is not an empty one. */
  datatype Diff = Diff(adds: Option<Members>, updates: Option<Members>, deletes: Option<seq<Text>>)

  function Adds(d: Diff): Members {
    match d.adds
    case None => map[]
    case Some(m) => m
  }

  function Updates(d: Diff): Members {
    match d.updates
    case None => map[]
    case Some(m) => m
  }

  function Deletes(d: Diff): seq<Text> {
    match d.deletes
    case None => []
    case Some(s) => s
  }

  function Deleted(d: Diff): set<Text> {
    set k | k in Deletes(d)
  }

  predicate EmptyDiff(d: Diff) {
    Adds(d) == map[] && Updates(d) == map[] && Deletes(d) == []
  }

  predicate DiffFits(d: Diff, was: Members) {
    && Unique(Deletes(d))
    && Adds(d).Keys !! was.Keys && Updates(d).Keys <= was.Keys && Deleted(d) <= was.Keys
    && Adds(d).Keys !! Updates(d).Keys && Adds(d).Keys !! Deleted(d) && Updates(d).Keys !! Deleted(d)
  }

  /** `_diff`. */
  function ApplyDiff(d: Diff, was: Members): Option<Members> {
    if DiffFits(d, was) then Some((was - Deleted(d)) + Adds(d) + Updates(d)) else None
  }

  datatype Operation = Same | Create | Update | Refresh | OtherOperation

  /** `overridden`: an alias, ignored change, imported id or replacement flag is set. */
  datatype Goal = Goal(
    kind: Kind,
    name: string,
    custom: bool,
    parent: Urn,
    provider: Reference,
    protect: bool,
    overridden: bool,
    inputDiff: Diff,
    outputDiff: Diff,
    dependencies: seq<Urn>,
    propertyDependencies: map<Text, seq<Urn>>,
    secretOutputs: seq<Text>)

  /** `seed` is the number of bytes the seed decodes to, if it is base64 at all. */
  datatype ResourcePlan = ResourcePlan(goal: Goal, steps: seq<Operation>, seed: Option<nat>)

  /** The only input change a retained row may carry: the defaults the provider's check adds after a refresh. */
  function RecheckDiff(kind: Kind): Diff {
    var adds := Some(map[DEFAULTS := EMPTY]);
    match kind
    case Ecr => Diff(adds, Some(map[SCANNING := Obj(map[SCAN_ON_PUSH := Bool(true), DEFAULTS := EMPTY])]), None)
    case Ses => Diff(adds, Some(map[DKIM := Obj(map[NEXT_KEY := RSA_2048, DEFAULTS := EMPTY])]), None)
    case _ => Diff(adds, None, None)
  }

  predicate SamePart(a: Option<Members>, b: Option<Members>) {
    match (a, b)
    case (None, None) => true
    case (Some(x), Some(y)) => SameMembers(x, y)
    case _ => false
  }

  predicate SameDiff(a: Diff, b: Diff) {
    SamePart(a.adds, b.adds) && SamePart(a.updates, b.updates) && a.deletes == b.deletes
  }

  datatype Recheck = NotRechecked | BadRecheck | Rechecked(inputs: Members)

  /** `_recheck_inputs`. */
  function RecheckInputs(site: Site, goal: Goal, prior: Option<Row>): Recheck {
    if prior.None? || goal.kind !in {Ecr, Ses, Dns} || !SameDiff(goal.inputDiff, RecheckDiff(goal.kind))
    then NotRechecked
    else
      var base := Pop(prior.value.inputs, DEFAULTS, EMPTY);
      if base.None? then BadRecheck
      else
        var result := ApplyDiff(RecheckDiff(goal.kind), base.value);
        if result.None? then BadRecheck
        else
          var was := SemanticInputs(site, goal.kind, prior.value.inputs);
          var now := SemanticInputs(site, goal.kind, result.value);
          if was.Some? && now.Some? && SameMembers(now.value, was.value) then Rechecked(result.value) else BadRecheck
  }

  /** `_goal_values`: the inputs and outputs the goal asks for. */
  function GoalValues(site: Site, goal: Goal, prior: Option<Row>, hardening: bool): Option<(Members, Members)> {
    var rechecked := RecheckInputs(site, goal, prior);
    if rechecked.BadRecheck? then None
    else
      var oldInputs := if prior.Some? then prior.value.inputs else map[];
      var oldOutputs := if prior.Some? then prior.value.outputs else map[];
      var inputs :- if rechecked.Rechecked? then Some(rechecked.inputs) else ApplyDiff(goal.inputDiff, oldInputs);
      var outputs :- ApplyDiff(goal.outputDiff, oldOutputs);
      if prior.Some? && !hardening
        && !((rechecked.Rechecked? || EmptyDiff(goal.inputDiff)) && EmptyDiff(goal.outputDiff)) then None
      else Some((inputs, outputs))
  }

  /** `_operation`. */
  function ExpectedOperation(site: Site, urn: Urn, prior: Option<Row>): Operation {
    if prior.None? then Create
    else if urn == site.provider && SameMembers(prior.value.inputs, LegacyInputs(site)) then Update
    else Same
  }

  /** The row the goal describes. */
  function DesiredRow(site: Site, urn: Urn, goal: Goal, prior: Option<Row>, values: (Members, Members)): Row {
    var id :=
      if prior.Some? then Some(IdOf(prior.value))
      else if urn == site.provider then Some(UNKNOWN)
      else None;
    Row(urn, goal.kind, goal.custom, goal.parent, goal.provider, id, goal.protect, goal.overridden, values.0, values.1,
        goal.dependencies, goal.propertyDependencies, goal.secretOutputs)
  }

  /** `_goal`: the desired row of one resource plan, if the plan is acceptable for the row observed before it. */
  function Desired(site: Site, urn: Urn, plan: ResourcePlan, prior: Option<Row>): Option<Row> {
    var operation, goal := ExpectedOperation(site, urn, prior), plan.goal;
    if plan.steps != [operation] || plan.seed != Some(32) || urn !in site.graph || goal.name != site.graph[urn].name
      || goal.overridden then None
    else
      var values :- GoalValues(site, goal, prior, operation == Update);
      var row := DesiredRow(site, urn, goal, prior, values);
      if (prior.Some? ==> Ownership(row) == Ownership(prior.value)) && StateOk(site, row, prior.None?, false, false)
      then Some(row) else None
  }

  function Find(rows: Rows, urn: Urn): Option<Row> {
    if urn in rows then Some(rows[urn]) else None
  }

  type Plans = map<Urn, ResourcePlan>

  predicate GoalsOk(site: Site, plans: Plans, prior: Rows) {
    forall u :: u in plans ==> Desired(site, u, plans[u], Find(prior, u)).Some?
  }

  /** The rows the acceptable goals describe. */
  function DesiredRows(site: Site, plans: Plans, prior: Rows): Rows {
    map u | u in plans && Desired(site, u, plans[u], Find(prior, u)).Some? ::
      Desired(site, u, plans[u], Find(prior, u)).value
  }

  // ---------------------------------------------------------------- preview

  /** `explained`: a detailed diff, diff reason or replacement reason is shown. */
  datatype Step = Step(
    urn: Urn, op: Operation, provider: Reference, oldState: Option<Row>, newState: Row, explained: bool)

  /** `redacted_outputs`: the validated private-key envelope shown as the preview shows it. */
  function RedactedOutputs(outputs: Members): Members {
    if DKIM in outputs && outputs[DKIM].Obj? then
      var m := outputs[DKIM].members;
      outputs[DKIM := Obj(if PRIVATE_KEY in m && m[PRIVATE_KEY].Obj? then m[PRIVATE_KEY := SECRET] else m)]
    else outputs
  }

  function Blanked(m: Members, key: Text): Members {
    if key in m then m[key := Null] else m
  }

  /** `_verification_telemetry`: the outputs without the values of the public verification fields. */
  function VerificationTelemetry(outputs: Members): Members {
    var m := Blanked(Blanked(RedactedOutputs(outputs), VERIFICATION), VERIFIED);
    if DKIM in m && m[DKIM].Obj? then m[DKIM := Obj(Blanked(m[DKIM].members, STATUS))] else m
  }

  function ShownOutputs(kind: Kind, outputs: Members, refreshed: bool): Members {
    if kind != Ses then outputs
    else if refreshed then VerificationTelemetry(outputs)
    else RedactedOutputs(outputs)
  }

  /** A displayed row agrees with the observed one. */
  predicate ShowsOld(site: Site, shown: Row, was: Row, refreshed: bool) {
    && StateOk(site, shown, false, false, true)
    && Ownership(shown) == Ownership(was)
    && (if refreshed then
          SameResult(SemanticInputs(site, was.kind, shown.inputs), SemanticInputs(site, was.kind, was.inputs))
          && SemanticInputs(site, was.kind, was.inputs).Some?
        else SameMembers(shown.inputs, was.inputs))
    && SameMembers(ShownOutputs(was.kind, shown.outputs, refreshed), ShownOutputs(was.kind, was.outputs, refreshed))
  }

  /** `_preview_old`. */
  predicate PreviewOld(site: Site, shown: Option<Row>, was: Option<Row>, refreshed: bool) {
    match was
    case None => shown.None?
    case Some(row) => shown.Some? && ShowsOld(site, shown.value, row, refreshed)
  }

  /** `_preview_new`: after a refresh the engine omits the id and outputs of unchanged rows. */
  function PreviewNew(site: Site, candidate: Row, was: Option<Row>, refreshed: bool): Option<Row> {
    var restoredId :=
      if refreshed && was.Some? && candidate.id.None? && was.value.custom
      then candidate.(id := was.value.id) else candidate;
    var restored :=
      if refreshed && was.Some? && restoredId.outputs == map[] then restoredId.(outputs := was.value.outputs)
      else restoredId;
    if refreshed && was.Some? && restoredId.outputs != map[] && !ShowsOld(site, restoredId, was.value, true) then None
    else if StateOk(site, restored, was.None?, false, true) then Some(restored)
    else None
  }

  /** `_preview_step`, apart from the URN not having been seen. */
  predicate PreviewStepOk(site: Site, step: Step, prior: Rows, desired: Rows, refreshed: bool) {
    && step.urn in site.graph && step.urn != site.provider && step.urn in desired
    && var was, want := Find(prior, step.urn), desired[step.urn];
    && step.op == (if was.Some? then Same else Create)
    && step.newState.kind == want.kind
    && !step.explained
    && step.provider == want.provider
    && PreviewOld(site, step.oldState, was, refreshed)
    && var shown := PreviewNew(site, step.newState, was, refreshed);
    && shown.Some?
    && var new_ := if was.None? && IdOf(shown.value) == UNKNOWN then shown.value.(id := Some([])) else shown.value;
    && Ownership(new_) == Ownership(want)
    && SameMembers(new_.inputs, want.inputs)
  }

  /** `_refresh_step`, apart from the URN not having been seen. */
  predicate RefreshStepOk(site: Site, step: Step, prior: Rows) {
    && step.urn in prior && step.urn != site.provider
    && !step.explained
    && step.provider == prior[step.urn].provider
    && PreviewOld(site, step.oldState, Some(prior[step.urn]), false)
    && PreviewOld(site, Some(step.newState), Some(prior[step.urn]), false)
  }

  function RefreshCheck(site: Site, prior: Rows): Step -> bool {
    (step: Step) => RefreshStepOk(site, step, prior)
  }

  function StepCheck(site: Site, prior: Rows, desired: Rows): (Step, bool) -> bool {
    (step: Step, refreshed: bool) => PreviewStepOk(site, step, prior, desired, refreshed)
  }

  function StepUrns(steps: seq<Step>): set<Urn> {
    set i | 0 <= i < |steps| :: steps[i].urn
  }

  predicate DistinctSteps(steps: seq<Step>) {
    forall i, j :: 0 <= i < j < |steps| ==> steps[i].urn != steps[j].urn
  }

  /** Leading refresh steps. */
  function Refreshes(steps: seq<Step>): (n: nat)
    ensures n <= |steps|
    ensures forall i :: 0 <= i < n ==> steps[i].op == Refresh
    ensures n < |steps| ==> steps[n].op != Refresh
  {
    if steps == [] || steps[0].op != Refresh then 0 else 1 + Refreshes(steps[1..])
  }

  /** Refresh steps of distinct resources, then other steps of distinct resources, each acceptable. */
  predicate Orderly(steps: seq<Step>, refreshOk: Step -> bool, stepOk: (Step, bool) -> bool) {
    var n := Refreshes(steps);
    && DistinctSteps(steps[..n]) && DistinctSteps(steps[n..])
    && (forall i :: 0 <= i < n ==> refreshOk(steps[i]))
    && (forall i :: n <= i < |steps| ==> steps[i].op != Refresh && stepOk(steps[i], n > 0))
  }

  /** Once a refresh is shown or demanded, both halves are complete; otherwise only creates must be shown. */
  predicate Covers(refreshed: set<Urn>, seen: set<Urn>, observed: set<Urn>, all: set<Urn>, requireRefresh: bool) {
    if refreshed != {} || requireRefresh then refreshed == observed && seen == all else all - observed <= seen
  }

  /** `_preview`. */
  predicate PreviewOk(site: Site, steps: seq<Step>, prior: Rows, desired: Rows, requireRefresh: bool) {
    var n := Refreshes(steps);
    && Orderly(steps, RefreshCheck(site, prior), StepCheck(site, prior, desired))
    && Covers(StepUrns(steps[..n]), StepUrns(steps[n..]),
              prior.Keys - {site.provider}, site.graph.Keys - {site.provider}, requireRefresh)
  }

  lemma {:induction false} RefreshesAppend(steps: seq<Step>, step: Step)
    ensures Refreshes(steps + [step]) ==
      if Refreshes(steps) == |steps| && step.op == Refresh then |steps| + 1 else Refreshes(steps)
  {
    if steps == [] {
      assert ([step])[1..] == [];
      assert steps + [step] == [step];
    } else {
      RefreshesAppend(steps[1..], step);
      assert (steps + [step])[1..] == steps[1..] + [step];
    }
  }

  lemma {:induction false} DistinctAppend(steps: seq<Step>, step: Step)
    ensures DistinctSteps(steps + [step]) <==> DistinctSteps(steps) && step.urn !in StepUrns(steps)
    ensures StepUrns(steps + [step]) == StepUrns(steps) + {step.urn}
  {
    var all := steps + [step];
    assert all[|steps|] == step && forall i :: 0 <= i < |steps| ==> all[i] == steps[i];
  }

  lemma {:induction false} OnlyRefreshes(steps: seq<Step>, refreshOk: Step -> bool, stepOk: (Step, bool) -> bool)
    requires Refreshes(steps) == |steps|
    ensures Orderly(steps, refreshOk, stepOk) <==>
      DistinctSteps(steps) && forall i :: 0 <= i < |steps| ==> refreshOk(steps[i])
  {
  }

  /** A refresh step while only refresh steps have been seen. */
  lemma {:induction false} AppendRefresh(
    steps: seq<Step>, step: Step, refreshOk: Step -> bool, stepOk: (Step, bool) -> bool)
    requires step.op == Refresh && Refreshes(steps) == |steps|
    ensures Refreshes(steps + [step]) == |steps| + 1
    ensures Orderly(steps + [step], refreshOk, stepOk) <==>
      Orderly(steps, refreshOk, stepOk) && step.urn !in StepUrns(steps) && refreshOk(step)
  {
    var all := steps + [step];
    RefreshesAppend(steps, step);
    DistinctAppend(steps, step);
    OnlyRefreshes(steps, refreshOk, stepOk);
    OnlyRefreshes(all, refreshOk, stepOk);
    assert all[|steps|] == step && forall i :: 0 <= i < |steps| ==> all[i] == steps[i];
  }

  /** A refresh step after another step. */
  lemma {:induction false} AppendLate(
    steps: seq<Step>, step: Step, refreshOk: Step -> bool, stepOk: (Step, bool) -> bool)
    requires step.op == Refresh && Refreshes(steps) < |steps|
    ensures !Orderly(steps + [step], refreshOk, stepOk)
  {
    RefreshesAppend(steps, step);
    assert (steps + [step])[|steps|] == step;
  }

  /** A step that is not a refresh. */
  lemma {:induction false} AppendOther(
    steps: seq<Step>, step: Step, refreshOk: Step -> bool, stepOk: (Step, bool) -> bool)
    requires step.op != Refresh
    ensures var n := Refreshes(steps);
      && Refreshes(steps + [step]) == n
      && (steps + [step])[..n] == steps[..n] && (steps + [step])[n..] == steps[n..] + [step]
      && (Orderly(steps + [step], refreshOk, stepOk) <==>
            Orderly(steps, refreshOk, stepOk) && step.urn !in StepUrns(steps[n..]) && stepOk(step, n > 0))
  {
    var n, all := Refreshes(steps), steps + [step];
    RefreshesAppend(steps, step);
    assert all[..n] == steps[..n] && all[n..] == steps[n..] + [step];
    DistinctAppend(steps[n..], step);
    hide DistinctSteps, Refreshes, StepUrns;
    assert all[|steps|] == step && forall i :: 0 <= i < |steps| ==> all[i] == steps[i];
  }

  /** The program's pass over the preview, with its two sets of URNs. */
  method CheckSteps(steps: seq<Step>, refreshOk: Step -> bool, stepOk: (Step, bool) -> bool,
                    observed: set<Urn>, all: set<Urn>, requireRefresh: bool) returns (ok: bool)
    ensures ok <==>
      && Orderly(steps, refreshOk, stepOk)
      && Covers(StepUrns(steps[..Refreshes(steps)]), StepUrns(steps[Refreshes(steps)..]), observed, all, requireRefresh)
  {
    hide Orderly, Refreshes, Covers, StepUrns;
    EmptyOrderly(refreshOk, stepOk);
    var seen: set<Urn>, refreshed: set<Urn> := {}, {};
    ghost var done: seq<Step> := [];
    for n := 0 to |steps|
      invariant done == steps[..n] && Orderly(done, refreshOk, stepOk)
      invariant refreshed == StepUrns(done[..Refreshes(done)])
      invariant seen == StepUrns(done[Refreshes(done)..])
    {
      var good;
      refreshed, seen, good := CheckStep(done, steps[n], refreshOk, stepOk, refreshed, seen);
      done := done + [steps[n]];
      assert done == steps[..n + 1];
      if !good {
        NotOrderly(steps, n + 1, refreshOk, stepOk);
        return false;
      }
    }
    assert done == steps;
    return Covers(refreshed, seen, observed, all, requireRefresh);
  }

  lemma {:induction false} EmptyOrderly(refreshOk: Step -> bool, stepOk: (Step, bool) -> bool)
    ensures Orderly([], refreshOk, stepOk) && Refreshes([]) == 0 && StepUrns([]) == {}
  {
  }

  lemma {:induction false} UrnsEmpty(steps: seq<Step>)
    ensures StepUrns(steps) == {} <==> steps == []
  {
    if steps != [] {
      assert steps[0].urn in StepUrns(steps);
    }
  }

  /** One turn of the loop: `done` are the steps before it. */
  method CheckStep(ghost done: seq<Step>, step: Step, refreshOk: Step -> bool, stepOk: (Step, bool) -> bool,
                   refreshed: set<Urn>, seen: set<Urn>)
    returns (refreshed': set<Urn>, seen': set<Urn>, ok: bool)
    requires Orderly(done, refreshOk, stepOk)
    requires refreshed == StepUrns(done[..Refreshes(done)]) && seen == StepUrns(done[Refreshes(done)..])
    ensures ok <==> Orderly(done + [step], refreshOk, stepOk)
    ensures ok ==> var n, next := Refreshes(done + [step]), done + [step];
      refreshed' == StepUrns(next[..n]) && seen' == StepUrns(next[n..])
  {
    ghost var n := Refreshes(done);
    refreshed', seen' := refreshed, seen;
    UrnsEmpty(done[..n]);
    UrnsEmpty(done[n..]);
    if step.op == Refresh {
      if seen != {} {
        AppendLate(done, step, refreshOk, stepOk);
        return refreshed, seen, false;
      }
      AppendRefresh(done, step, refreshOk, stepOk);
      ok := step.urn !in refreshed && refreshOk(step);
      refreshed' := refreshed + {step.urn};
      DistinctAppend(done, step);
      assert done[..n] == done && (done + [step])[..n + 1] == done + [step] && (done + [step])[n + 1..] == [];
    } else {
      AppendOther(done, step, refreshOk, stepOk);
      ok := step.urn !in seen && stepOk(step, refreshed != {});
      seen' := seen + {step.urn};
      DistinctAppend(done[n..], step);
    }
  }

  lemma {:induction false} NotOrderly(steps: seq<Step>, n: nat, refreshOk: Step -> bool, stepOk: (Step, bool) -> bool)
    requires n <= |steps| && !Orderly(steps[..n], refreshOk, stepOk)
    ensures !Orderly(steps, refreshOk, stepOk)
  {
  }

  // ---------------------------------------------------------------- the gate

  /** `maybeCorrupt` is the engine's own doubt about the preview. */
  datatype Preview = Preview(steps: seq<Step>, maybeCorrupt: bool)

  /** `pinnedManifest`: the plan was written by the one engine version the gate knows. */
  datatype SavedPlan = SavedPlan(pinnedManifest: bool, plans: Plans)

  /** One coherent graph: observed rows, goals and preview agree. */
  predicate Accepts(site: Site, preview: Preview, saved: SavedPlan, rows: seq<Row>, requireRefresh: bool) {
    && PriorOk(site, rows)
    && saved.pinnedManifest
    && saved.plans.Keys == site.graph.Keys
    && var prior := Inventory(rows);
    && GoalsOk(site, saved.plans, prior)
    && var desired := DesiredRows(site, saved.plans, prior);
    && DesiredOk(site, desired)
    && !preview.maybeCorrupt
    && PreviewOk(site, preview.steps, prior, desired, requireRefresh)
  }

  predicate DesiredOk(site: Site, desired: Rows) {
    && site.provider in desired
    && AllReferencesOk(site, desired, IdOf(desired[site.provider]))
    && BindingsOk(site, desired)
  }

  /** The desired row of every resource plan. */
  method Goals(site: Site, plans: Plans, prior: Rows) returns (r: Option<Rows>)
    ensures r.Some? <==> GoalsOk(site, plans, prior)
    ensures r.Some? ==> r.value == DesiredRows(site, plans, prior)
  {
    hide Desired;
    var goal := (u: Urn) => if u in plans then Desired(site, u, plans[u], Find(prior, u)) else None;
    r := Collect(plans.Keys, goal);
    assert r.Some? <==> forall u :: u in plans ==> goal(u).Some?;
  }

  method Collect(urns: set<Urn>, goal: Urn -> Option<Row>) returns (r: Option<Rows>)
    ensures r.Some? <==> forall u :: u in urns ==> goal(u).Some?
    ensures r.Some? ==> r.value.Keys == urns && forall u :: u in urns ==> Some(r.value[u]) == goal(u)
  {
    var todo, result := urns, map[];
    while todo != {}
      invariant todo <= urns && result.Keys == urns - todo
      invariant forall u :: u in result ==> goal(u) == Some(result[u])
      decreases |todo|
    {
      var u :| u in todo;
      var row := goal(u);
      if row.None? {
        return None;
      }
      result, todo := result[u := row.value], todo - {u};
    }
    return Some(result);
  }

  /** `validate`, in the order the program checks things. */
  method Validate(site: Site, preview: Preview, saved: SavedPlan, rows: seq<Row>, requireRefresh: bool)
    returns (ok: bool)
    ensures ok <==> Accepts(site, preview, saved, rows, requireRefresh)
  {
    hide PriorOk, AllReferencesOk, BindingsOk, Orderly, Covers, Desired;
    var prior := Prior(site, rows);
    if prior.None? || !saved.pinnedManifest || saved.plans.Keys != site.graph.Keys {
      return false;
    }
    var desired := Goals(site, saved.plans, prior.value);
    if desired.None? || site.provider !in desired.value {
      return false;
    }
    var closed := CheckReferences(site, desired.value, IdOf(desired.value[site.provider]));
    if !closed || !BindingsOk(site, desired.value) || preview.maybeCorrupt {
      return false;
    }
    ok := CheckSteps(preview.steps, RefreshCheck(site, prior.value), StepCheck(site, prior.value, desired.value),
                     prior.value.Keys - {site.provider}, site.graph.Keys - {site.provider}, requireRefresh);
  }
}
