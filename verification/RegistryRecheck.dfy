/**
 The one change a plan may carry for a resource that exists: the empty defaults the provider's check adds again
 after a refresh (`_recheck_inputs` and `_goal_values` in scripts/poc_registry_plan.py). Exactly which goals of
 existing rows are acceptable, what they describe, and that plans made of them are accepted.
 */
module RegistryRecheck {
  import opened Options
  import opened Texts
  import opened Json
  import opened RegistryRows
  import opened RegistryPlan
  import opened RegistryHistory
  import opened RegistryProperties

  // ---------------------------------------------------------------- what the provider's check writes

  /** The block of settings that gets empty defaults of its own, and its one setting. */
  function RecheckedBlock(kind: Kind): Members {
    match kind
    case Ecr => map[T("imageScanningConfiguration") :=
                      Obj(map[T("scanOnPush") := Bool(true), T("__defaults") := Arr([])])]
    case Ses => map[T("dkimSigningAttributes") :=
                      Obj(map[T("nextSigningKeyLength") := Str(T("RSA_2048_BIT")), T("__defaults") := Arr([])])]
    case _ => map[]
  }

  /** The change as the plan writes it. */
  function WrittenDiff(kind: Kind): Diff {
    Diff(Some(map[T("__defaults") := Arr([])]), if kind == Dns then None else Some(RecheckedBlock(kind)), None)
  }

  /** What it makes of the stored inputs: every other input stays. */
  function RecheckedInputs(row: Row): Members {
    row.inputs + map[T("__defaults") := Arr([])] + RecheckedBlock(row.kind)
  }

  predicate Recheckable(kind: Kind) {
    kind == Ecr || kind == Ses || kind == Dns
  }

  lemma {:induction false} WrittenExactly(kind: Kind)
    requires Recheckable(kind)
    ensures WrittenDiff(kind) == RecheckDiff(kind)
  {
  }

  // ---------------------------------------------------------------- the reconstruction

  lemma {:induction false} BlockApplies(inputs: Members, base: Members, key: Text, setting: Text, v: Value)
    requires Pop(inputs, DEFAULTS, EMPTY) == Some(base) && key in base && key != DEFAULTS
    ensures var d := Diff(Some(map[DEFAULTS := EMPTY]), Some(map[key := Obj(FreshBlock(setting, v))]), None);
      ApplyDiff(d, base) == Some(inputs + map[DEFAULTS := EMPTY] + map[key := Obj(FreshBlock(setting, v))])
  {
    hide PyEq;
    var d := Diff(Some(map[DEFAULTS := EMPTY]), Some(map[key := Obj(FreshBlock(setting, v))]), None);
    assert Deleted(d) == {} && base - {} == base && DEFAULTS !in base;
    assert base + map[DEFAULTS := EMPTY] == inputs + map[DEFAULTS := EMPTY];
  }

  lemma {:induction false} DefaultsApply(inputs: Members, base: Members)
    requires Pop(inputs, DEFAULTS, EMPTY) == Some(base)
    ensures ApplyDiff(Diff(Some(map[DEFAULTS := EMPTY]), None, None), base) == Some(inputs + map[DEFAULTS := EMPTY])
    ensures Pop(inputs + map[DEFAULTS := EMPTY], DEFAULTS, EMPTY) == Some(base)
  {
    var d := Diff(Some(map[DEFAULTS := EMPTY]), None, None);
    assert Deleted(d) == {} && base - {} == base && DEFAULTS !in base;
    assert base + map[DEFAULTS := EMPTY] == inputs + map[DEFAULTS := EMPTY];
    assert base + map[DEFAULTS := EMPTY] + map[] == base + map[DEFAULTS := EMPTY];
    assert inputs + map[DEFAULTS := EMPTY] - {DEFAULTS} == base;
  }

  /** The reconstruction of the row's inputs, and their normal form. */
  predicate Rewritten(site: Site, row: Row) {
    var base := Pop(row.inputs, DEFAULTS, EMPTY);
    && base.Some? && ApplyDiff(RecheckDiff(row.kind), base.value) == Some(RecheckedInputs(row))
    && SemanticInputs(site, row.kind, row.inputs).Some?
    && SemanticInputs(site, row.kind, RecheckedInputs(row)).Some?
    && SameMembers(
      SemanticInputs(site, row.kind, RecheckedInputs(row)).value, SemanticInputs(site, row.kind, row.inputs).value)
  }

  lemma {:induction false} EcrRewritten(site: Site, row: Row)
    requires row.kind == Ecr && RepositoryOk(site, row, false)
    ensures Rewritten(site, row)
  {
    hide StripDefaults, StripBlock, SameMembers, PyEq, ApplyDiff, RepositoryInputs, Computed;
    var checked := EcrCheckedInputs(site, row.inputs).value;
    var base := Pop(row.inputs, DEFAULTS, EMPTY).value;
    RepositoryBlock(site, row, checked);
    EcrRecheck(site, row.inputs, checked, base);
    KeysDiffer();
    if SCANNING in StripDefaults(site, base).value {
      StrippedHas(site, base, SCANNING);
    }
    BlockApplies(row.inputs, base, SCANNING, SCAN_ON_PUSH, Bool(true));
  }

  lemma {:induction false} SesRewritten(site: Site, row: Row)
    requires row.kind == Ses && MailCheckedInputs(site, Ses, row.inputs).Some?
    requires IdentityOk(site, row, MailCheckedInputs(site, Ses, row.inputs).value, false, false)
    ensures Rewritten(site, row)
  {
    hide StripDefaults, StripBlock, SameMembers, PyEq, ApplyDiff, IdentityInputs, IdentityOutput;
    var checked := MailCheckedInputs(site, Ses, row.inputs).value;
    var base := Pop(row.inputs, DEFAULTS, EMPTY).value;
    IdentityBlock(site, row, checked, false);
    SesRecheck(site, row.inputs, checked, base);
    KeysDiffer();
    StrippedHas(site, base, DKIM);
    BlockApplies(row.inputs, base, DKIM, NEXT_KEY, RSA_2048);
  }

  lemma {:induction false} DnsRewritten(site: Site, row: Row)
    requires row.kind == Dns && MailCheckedInputs(site, Dns, row.inputs).Some?
    ensures Rewritten(site, row)
    ensures MailCheckedInputs(site, Dns, RecheckedInputs(row)) == MailCheckedInputs(site, Dns, row.inputs)
  {
    hide PyEq, ApplyDiff;
    var base := Pop(row.inputs, DEFAULTS, EMPTY).value;
    DefaultsApply(row.inputs, base);
    assert RecheckedInputs(row) == row.inputs + map[DEFAULTS := EMPTY];
    SameSelf(base);
  }

  // ---------------------------------------------------------------- the rechecked row

  /** The row under its rechecked inputs, as the goal describes it. */
  function RecheckedRow(row: Row): Row {
    WithId(row).(inputs := RecheckedInputs(row))
  }

  lemma {:induction false} EcrStays(site: Site, row: Row)
    requires row.kind == Ecr && RepositoryOk(site, row, false)
    ensures RepositoryOk(site, RecheckedRow(row), false)
  {
    EcrRewritten(site, row);
    hide EcrCheckedInputs, Computed, RepositoryInputs, RecheckedInputs, ApplyDiff, Pop;
    assert RecheckedRow(row).outputs == row.outputs;
  }

  lemma {:induction false} PyEqTransitive(a: Value, b: Value, c: Value)
    requires PyEq(a, b) && PyEq(b, c)
    ensures PyEq(a, c) && PyEq(b, a)
  {
  }

  /** An output agrees with what is expected of it if and only if it does with values that are the same. */
  lemma {:induction false} OutputAlike(site: Site, k: Text, v: Value, a: Members, b: Members, rest: Members)
    requires SameMembers(b, a) && IdentityOutput(site, k, v, a + rest, false, false)
    ensures IdentityOutput(site, k, v, b + rest, false, false)
  {
    hide DkimOk, PyEq, SameMembers;
    SameMembersPointwise(b, a);
    if k in a && k !in rest && PyEq(v, a[k]) {
      PyEqTransitive(b[k], a[k], a[k]);
      PyEqTransitive(v, a[k], b[k]);
    }
  }

  /** Identity inputs that are the same give the same verdict on the row. */
  lemma {:induction false} IdentityAlike(site: Site, row: Row, now: Row, a: Members, b: Members)
    requires IdentityOk(site, row, a, false, false) && SameMembers(b, a)
    requires now.id == row.id && now.outputs == row.outputs
    ensures IdentityOk(site, now, b, false, false)
  {
    hide DkimOk, IdentityInputs, PyEq, IdentityOutput;
    var rest := site.identityOutputs
      + map[ID := Str(site.domain), ARN := site.identityArn, REGION := site.region, TAGS_ALL := site.tags];
    SameMembersPointwise(b, a);
    PyEqTransitive(Obj(b), Obj(a), Obj(IdentityInputs(site)));
    assert a + rest == a + site.identityOutputs
      + map[ID := Str(site.domain), ARN := site.identityArn, REGION := site.region, TAGS_ALL := site.tags];
    assert b + rest == b + site.identityOutputs
      + map[ID := Str(site.domain), ARN := site.identityArn, REGION := site.region, TAGS_ALL := site.tags];
    forall k | k in row.outputs ensures IdentityOutput(site, k, row.outputs[k], b + rest, false, false) {
      OutputAlike(site, k, row.outputs[k], a, b, rest);
    }
  }

  lemma {:induction false} SesStays(site: Site, row: Row)
    requires row.kind == Ses && MailCheckedInputs(site, Ses, row.inputs).Some?
    requires IdentityOk(site, row, MailCheckedInputs(site, Ses, row.inputs).value, false, false)
    ensures var inputs := MailCheckedInputs(site, Ses, RecheckedRow(row).inputs);
      inputs.Some? && IdentityOk(site, RecheckedRow(row), inputs.value, false, false)
  {
    SesRewritten(site, row);
    hide MailCheckedInputs, RecheckedInputs, ApplyDiff, Pop, SameMembers;
    IdentityKnown(site, row, MailCheckedInputs(site, Ses, row.inputs).value);
    IdentityAlike(
      site, row, RecheckedRow(row), MailCheckedInputs(site, Ses, row.inputs).value,
      MailCheckedInputs(site, Ses, RecheckedInputs(row)).value);
  }

  lemma {:induction false} IdentityKnown(site: Site, row: Row, inputs: Members)
    requires IdentityOk(site, row, inputs, false, false)
    ensures row.id.Some?
  {
  }

  lemma {:induction false} DnsStays(site: Site, row: Row)
    requires row.kind == Dns && MailCheckedInputs(site, Dns, row.inputs).Some?
    requires RecordOk(site, row, MailCheckedInputs(site, Dns, row.inputs).value, false)
    ensures var inputs := MailCheckedInputs(site, Dns, RecheckedRow(row).inputs);
      inputs.Some? && RecordOk(site, RecheckedRow(row), inputs.value, false)
  {
    DnsRewritten(site, row);
    hide MailCheckedInputs, RecheckedInputs, ApplyDiff, Pop, SameMembers, RecordInputs, Computed;
    assert RecheckedRow(row).outputs == row.outputs && row.id.Some?;
  }

  /** Rechecking an observed row leaves a row the gate accepts. */
  lemma {:induction false} RecheckStays(site: Site, row: Row)
    requires StateOk(site, row, false, false, false) && Recheckable(row.kind)
    ensures Rewritten(site, row) && StateOk(site, RecheckedRow(row), false, false, false)
  {
    hide MailCheckedInputs, RecheckedInputs, RepositoryOk, IdentityOk, RecordOk, Rewritten;
    match row.kind
    case Ecr =>
      EcrRewritten(site, row);
      EcrStays(site, row);
    case Ses =>
      SesRewritten(site, row);
      SesStays(site, row);
    case Dns =>
      DnsRewritten(site, row);
      DnsStays(site, row);
  }

  // ---------------------------------------------------------------- goals of existing rows

  /** The goal describes the row where it is, under the name the graph has for it. */
  predicate Describes(site: Site, goal: Goal, row: Row) {
    && row.urn in site.graph && goal.name == site.graph[row.urn].name && !goal.overridden
    && goal.kind == row.kind && goal.custom == row.custom && goal.parent == row.parent
    && goal.provider == row.provider && goal.protect == row.protect
  }

  /** No input is added, changed or taken away. */
  predicate Nothing(d: Diff) {
    && (d.adds == None || d.adds == Some(map[]))
    && (d.updates == None || d.updates == Some(map[]))
    && (d.deletes == None || d.deletes == Some([]))
  }

  /** The goal carries the provider's recheck of its kind, as Python compares the two. */
  predicate RecheckGoal(goal: Goal) {
    && Recheckable(goal.kind)
    && var d := goal.inputDiff;
    && d.deletes == None && d.adds.Some? && SameMembers(d.adds.value, map[T("__defaults") := Arr([])])
    && (if goal.kind == Dns then d.updates == None
        else d.updates.Some? && SameMembers(d.updates.value, RecheckedBlock(goal.kind)))
  }

  lemma {:induction false} RecheckWritten(goal: Goal)
    ensures RecheckGoal(goal) <==> Recheckable(goal.kind) && SameDiff(goal.inputDiff, WrittenDiff(goal.kind))
  {
    hide SameMembers, RecheckedBlock;
  }

  /** The row that a goal of this shape describes. */
  function Described(goal: Goal, row: Row): Row {
    (if RecheckGoal(goal) then RecheckedRow(row) else WithId(row)).(
      dependencies := goal.dependencies, propertyDependencies := goal.propertyDependencies,
      secretOutputs := goal.secretOutputs)
  }

  lemma {:induction false} NothingExactly(d: Diff)
    ensures Nothing(d) <==> EmptyDiff(d)
  {
  }

  lemma {:induction false} RecheckGoalExactly(site: Site, goal: Goal, row: Row)
    requires StateOk(site, row, false, false, false) && goal.kind == row.kind
    ensures RecheckInputs(site, goal, Some(row)) ==
      if RecheckGoal(goal) then Rechecked(RecheckedInputs(row)) else NotRechecked
  {
    hide StateOk, SameDiff, RecheckDiff, WrittenDiff, RecheckedInputs, ApplyDiff, SemanticInputs, SameMembers, Pop;
    hide RecheckGoal;
    RecheckWritten(goal);
    if Recheckable(goal.kind) {
      WrittenExactly(goal.kind);
      RecheckStays(site, row);
    }
  }

  lemma {:induction false} ValuesExactly(site: Site, goal: Goal, row: Row)
    requires StateOk(site, row, false, false, false) && goal.kind == row.kind
    ensures var values := GoalValues(site, goal, Some(row), false);
      && (values.Some? <==> Nothing(goal.outputDiff) && (Nothing(goal.inputDiff) || RecheckGoal(goal)))
      && (values.Some? ==>
            values.value == (if RecheckGoal(goal) then RecheckedInputs(row) else row.inputs, row.outputs))
  {
    hide StateOk, RecheckGoal, RecheckedInputs, ApplyDiff, RecheckInputs, EmptyDiff, Nothing;
    RecheckGoalExactly(site, goal, row);
    NothingExactly(goal.inputDiff);
    NothingExactly(goal.outputDiff);
    if EmptyDiff(goal.inputDiff) {
      EmptyDiffApplies(goal.inputDiff, row.inputs);
    }
    if EmptyDiff(goal.outputDiff) {
      EmptyDiffApplies(goal.outputDiff, row.outputs);
    }
  }

  /** The checks of a row do not look at its dependencies. */
  lemma {:induction false} StateIgnores(site: Site, row: Row, goal: Goal)
    requires StateOk(site, row, false, false, false)
    ensures StateOk(site, row.(dependencies := goal.dependencies, propertyDependencies := goal.propertyDependencies,
                               secretOutputs := goal.secretOutputs), false, false, false)
  {
    hide MailCheckedInputs, EcrCheckedInputs, IdentityOutput, DkimOk, Computed, RepositoryInputs;
    hide RecordInputs, IdentityInputs, SameMembers, LegacyInputs, ProviderInputsOk;
  }

  lemma {:induction false} DescribedOk(site: Site, goal: Goal, row: Row)
    requires StateOk(site, row, false, false, false) && (RecheckGoal(goal) ==> goal.kind == row.kind)
    ensures StateOk(site, Described(goal, row), false, false, false)
  {
    hide StateOk, RecheckedInputs, SameDiff, WithId;
    if RecheckGoal(goal) {
      RecheckStays(site, row);
      StateIgnores(site, RecheckedRow(row), goal);
    } else {
      StateWithId(site, row);
      StateIgnores(site, WithId(row), goal);
    }
  }

  /**
   Exactly which plans the gate takes for a row that exists: one `same` step, a seed of 32 bytes, a goal that
   describes the row as it is, no change of outputs, and no change of inputs but the provider's recheck; and the
   row such a plan describes.
   */
  lemma {:induction false} RetainedGoalExactly(site: Site, row: Row, plan: ResourcePlan)
    requires StateOk(site, row, false, false, false)
    requires row.urn == site.provider ==> !SameMembers(row.inputs, LegacyInputs(site))
    ensures Desired(site, row.urn, plan, Some(row)).Some? <==>
      && plan.steps == [Same] && plan.seed == Some(32) && Describes(site, plan.goal, row)
      && Nothing(plan.goal.outputDiff) && (Nothing(plan.goal.inputDiff) || RecheckGoal(plan.goal))
    ensures Desired(site, row.urn, plan, Some(row)).Some? ==>
      Desired(site, row.urn, plan, Some(row)).value == Described(plan.goal, row)
  {
    hide StateOk, RecheckGoal, RecheckedInputs, GoalValues, Nothing, SameMembers, LegacyInputs, Ownership;
    PlacedIn(site, row);
    DescribedOwner(site, row, plan.goal);
    if plan.goal.kind == row.kind {
      ValuesExactly(site, plan.goal, row);
      DescribedOk(site, plan.goal, row);
    }
  }

  lemma {:induction false} DescribedOwner(site: Site, row: Row, goal: Goal)
    ensures forall values :: Ownership(DesiredRow(site, row.urn, goal, Some(row), values)) == Ownership(row) <==>
      && goal.kind == row.kind && goal.custom == row.custom && goal.parent == row.parent
      && goal.provider == row.provider && goal.protect == row.protect
  {
  }

  lemma {:induction false} PlacedIn(site: Site, row: Row)
    requires StateOk(site, row, false, false, false)
    ensures row.urn in site.graph && !row.flagged
  {
  }

  // ---------------------------------------------------------------- the rechecked plan

  /** The plan the engine writes for a row nothing has changed, after a check that wrote its defaults again. */
  function RecheckedPlan(site: Site, row: Row): ResourcePlan
    requires row.urn in site.graph
  {
    var plan := UnchangedPlan(site, row);
    plan.(goal := plan.goal.(inputDiff := WrittenDiff(row.kind)))
  }

  predicate AllPlaced(site: Site, prior: Rows) {
    prior.Keys <= site.graph.Keys && forall u :: u in prior ==> prior[u].urn == u
  }

  /** The unchanged plan, the check having written the defaults of the resources in `checked` again. */
  function RecheckedPlans(site: Site, prior: Rows, checked: set<Urn>): Plans
    requires AllPlaced(site, prior)
  {
    map u | u in prior :: if u in checked then RecheckedPlan(site, prior[u]) else UnchangedPlan(site, prior[u])
  }

  /** The resources are observed ones whose inputs a provider checks. */
  predicate CheckedByProvider(prior: Rows, checked: set<Urn>) {
    forall u :: u in checked ==> u in prior && Recheckable(prior[u].kind)
  }

  function AfterCheck(prior: Rows, checked: set<Urn>): Rows {
    map u | u in prior :: if u in checked then RecheckedRow(prior[u]) else WithId(prior[u])
  }

  lemma {:induction false} RecheckedDesired(site: Site, row: Row)
    requires StateOk(site, row, false, false, false) && Recheckable(row.kind)
    requires row.urn == site.provider ==> !SameMembers(row.inputs, LegacyInputs(site))
    ensures Desired(site, row.urn, RecheckedPlan(site, row), Some(row)) == Some(RecheckedRow(row))
  {
    RetainedGoalExactly(site, row, RecheckedPlan(site, row));
    WrittenSelf(row.kind);
    RecheckWritten(RecheckedPlan(site, row).goal);
    hide StateOk, SameMembers, LegacyInputs, Desired, SameDiff, RecheckedInputs, RecheckGoal;
  }

  lemma {:induction false} WrittenSelf(kind: Kind)
    ensures SameDiff(WrittenDiff(kind), WrittenDiff(kind))
  {
    hide RecheckedBlock;
    SameSelf(RecheckedBlock(kind));
    SameSelf(map[T("__defaults") := Arr([])]);
  }

  lemma {:induction false} RecheckedGoals(site: Site, prior: Rows, checked: set<Urn>)
    requires AllPlaced(site, prior) && CheckedByProvider(prior, checked)
    requires forall u :: u in prior ==> StateOk(site, prior[u], false, false, false)
    requires forall u :: !Hardened(site, prior, u)
    ensures GoalsOk(site, RecheckedPlans(site, prior, checked), prior)
    ensures DesiredRows(site, RecheckedPlans(site, prior, checked), prior) == AfterCheck(prior, checked)
  {
    hide Desired, StateOk, SameMembers, LegacyInputs, RecheckedRow, RecheckedPlan, UnchangedPlan;
    var plans := RecheckedPlans(site, prior, checked);
    forall u | u in prior
      ensures Desired(site, u, plans[u], Find(prior, u)) == Some(AfterCheck(prior, checked)[u])
    {
      assert !Hardened(site, prior, u);
      if u in checked {
        RecheckedDesired(site, prior[u]);
      } else {
        UnchangedDesired(site, prior[u]);
      }
    }
    assert DesiredRows(site, plans, prior).Keys == prior.Keys;
  }

  lemma {:induction false} RecheckedReferences(site: Site, prior: Rows, checked: set<Urn>, id: Text)
    requires AllReferencesOk(site, prior, id)
    ensures AllReferencesOk(site, AfterCheck(prior, checked), id)
  {
    hide ReferencesOk, RecheckedRow, WithId;
    var after := AfterCheck(prior, checked);
    assert after.Keys == prior.Keys;
    forall u | u in after ensures ReferencesOk(site, after[u], after.Keys, id) {
      ReferencesAfter(site, prior[u], after[u], prior.Keys, id);
    }
  }

  lemma {:induction false} ReferencesAfter(site: Site, row: Row, now: Row, urns: set<Urn>, id: Text)
    requires ReferencesOk(site, row, urns, id)
    requires now == WithId(row) || now == RecheckedRow(row)
    ensures ReferencesOk(site, now, urns, id)
  {
    hide RecheckedBlock, Unique, OthersOf;
  }

  lemma {:induction false} BoundAfter(site: Site, identity: Row, record: Row, now: Row, then_: Row)
    requires RecordBound(site, identity, record)
    requires now == WithId(identity) || now == RecheckedRow(identity)
    requires then_ == WithId(record)
      || (then_ == RecheckedRow(record) && record.kind == Dns && MailCheckedInputs(site, Dns, record.inputs).Some?)
    ensures RecordBound(site, now, then_)
  {
    if then_ != WithId(record) {
      DnsRewritten(site, record);
    }
    hide MailCheckedInputs, RecheckedInputs, SameMembers, RecordInputs, Tokens;
  }

  lemma {:induction false} RecheckedBindings(site: Site, prior: Rows, checked: set<Urn>)
    requires BindingsOk(site, prior)
    ensures BindingsOk(site, AfterCheck(prior, checked))
  {
    hide RecordBound, RecheckedInputs, OfKind;
    var after := AfterCheck(prior, checked);
    KindsAfter(prior, checked, Ses);
    KindsAfter(prior, checked, Dns);
    forall i, u | i in OfKind(after, Ses) && u in OfKind(after, Dns)
      ensures RecordBound(site, after[i], after[u])
    {
      OfKindAt(prior, Ses, i);
      OfKindAt(prior, Dns, u);
      BoundHasInputs(site, prior[i], prior[u]);
      BoundAfter(site, prior[i], prior[u], after[i], after[u]);
    }
  }

  lemma {:induction false} KindsAfter(prior: Rows, checked: set<Urn>, kind: Kind)
    ensures OfKind(AfterCheck(prior, checked), kind) == OfKind(prior, kind) <= AfterCheck(prior, checked).Keys
  {
  }

  lemma {:induction false} OfKindAt(rows: Rows, kind: Kind, u: Urn)
    requires u in OfKind(rows, kind)
    ensures u in rows && rows[u].kind == kind
  {
  }

  lemma {:induction false} BoundHasInputs(site: Site, identity: Row, record: Row)
    requires RecordBound(site, identity, record)
    ensures MailCheckedInputs(site, Dns, record.inputs).Some?
  {
  }

  lemma {:induction false} RecheckedDesiredOk(site: Site, prior: Rows, checked: set<Urn>)
    requires site.provider in prior && BindingsOk(site, prior)
    requires AllReferencesOk(site, prior, ProviderId(site, prior))
    ensures DesiredOk(site, AfterCheck(prior, checked))
  {
    hide BindingsOk, AllReferencesOk, RecheckedInputs;
    RecheckedBindings(site, prior, checked);
    RecheckedReferences(site, prior, checked, ProviderId(site, prior));
    assert IdOf(AfterCheck(prior, checked)[site.provider]) == ProviderId(site, prior);
  }

  // ---------------------------------------------------------------- its preview

  /** The `same` step of a resource, showing its rechecked inputs if the check wrote any. */
  function ShowChecked(row: Row, checked: set<Urn>): Step {
    Step(row.urn, Same, row.provider, Some(row),
         if row.urn in checked then row.(inputs := RecheckedInputs(row)) else row, false)
  }

  function ShowAllChecked(rows: seq<Row>, provider: Urn, checked: set<Urn>): seq<Step> {
    if rows == [] then []
    else
      var front, last := rows[..|rows| - 1], rows[|rows| - 1];
      ShowAllChecked(front, provider, checked) + (if last.urn == provider then [] else [ShowChecked(last, checked)])
  }

  function RecheckedPreview(site: Site, rows: seq<Row>, checked: set<Urn>): Preview {
    Preview(ShowRows(rows, site.provider, Refresh) + ShowAllChecked(rows, site.provider, checked), false)
  }

  lemma {:induction false} ShownCheckedFrom(rows: seq<Row>, provider: Urn, checked: set<Urn>, i: nat) returns (k: nat)
    requires i < |ShowAllChecked(rows, provider, checked)|
    ensures k < |rows| && rows[k].urn != provider
    ensures ShowAllChecked(rows, provider, checked)[i] == ShowChecked(rows[k], checked)
  {
    hide ShowChecked;
    var front := rows[..|rows| - 1];
    if i < |ShowAllChecked(front, provider, checked)| {
      k := ShownCheckedFrom(front, provider, checked, i);
    } else {
      k := |rows| - 1;
    }
  }

  lemma {:induction false} ShownCheckedEnumerate(rows: seq<Row>, provider: Urn, checked: set<Urn>)
    requires DistinctUrns(rows)
    ensures Enumerates(ShowAllChecked(rows, provider, checked), Urns(rows) - {provider})
  {
    hide RecheckedInputs;
    if rows != [] {
      var front, last := rows[..|rows| - 1], rows[|rows| - 1];
      UrnsStep(rows);
      ShownCheckedEnumerate(front, provider, checked);
      var shown := ShowAllChecked(front, provider, checked);
      assert shown + [] == shown;
      if last.urn != provider {
        DistinctAppend(shown, ShowChecked(last, checked));
      }
    }
  }

  /** Each step of that preview is acceptable. */
  lemma {:induction false} CheckedStepOk(site: Site, prior: Rows, row: Row, checked: set<Urn>)
    requires row.urn in prior && prior[row.urn] == row && row.urn != site.provider && row.urn in site.graph
    requires StateOk(site, row, false, false, false) && (row.urn in checked ==> Recheckable(row.kind))
    ensures PreviewStepOk(site, ShowChecked(row, checked), prior, AfterCheck(prior, checked), true)
  {
    hide StateOk, SemanticInputs, ShownOutputs, SameMembers, ShowsOld, RecheckedInputs;
    ShowsItself(site, row);
    StateInPreview(site, row);
    SameSelf(row.inputs);
    if row.urn in checked {
      ShowsRechecked(site, row);
      SameSelf(RecheckedInputs(row));
    }
  }

  /** The row under its rechecked inputs passes for the row, and is one the gate accepts. */
  lemma {:induction false} ShowsRechecked(site: Site, row: Row)
    requires StateOk(site, row, false, false, false) && Recheckable(row.kind)
    ensures ShowsOld(site, row.(inputs := RecheckedInputs(row)), row, true)
    ensures StateOk(site, row.(inputs := RecheckedInputs(row)), false, false, true)
  {
    hide StateOk, SemanticInputs, RecheckedInputs, Pop, ApplyDiff, ShownOutputs;
    IdKept(site, row);
    RecheckStays(site, row);
    assert row.(inputs := RecheckedInputs(row)) == RecheckedRow(row);
    StateInPreview(site, RecheckedRow(row));
    SameSelf(ShownOutputs(row.kind, row.outputs, true));
  }

  lemma {:induction false} IdKept(site: Site, row: Row)
    requires StateOk(site, row, false, false, false) && Recheckable(row.kind)
    ensures row.id.Some?
  {
    hide MailCheckedInputs, EcrCheckedInputs, Computed, SameMembers;
  }

  lemma {:induction false} RefreshShown(site: Site, rows: seq<Row>, i: nat)
    requires DistinctUrns(rows) && Urns(rows) == site.graph.Keys
    requires forall i :: 0 <= i < |rows| ==> StateOk(site, rows[i], false, false, false)
    requires i < |ShowRows(rows, site.provider, Refresh)|
    ensures var step := ShowRows(rows, site.provider, Refresh)[i];
      step.op == Refresh && RefreshStepOk(site, step, Inventory(rows))
  {
    hide StateOk, RefreshStepOk, ShowRows;
    ShownStepOk(site, rows, Refresh, ShowRows(rows, site.provider, Refresh)[i], i);
  }

  lemma {:induction false} CheckedShown(site: Site, rows: seq<Row>, checked: set<Urn>, i: nat)
    requires DistinctUrns(rows) && Urns(rows) == site.graph.Keys
    requires forall i :: 0 <= i < |rows| ==> StateOk(site, rows[i], false, false, false)
    requires CheckedByProvider(Inventory(rows), checked)
    requires i < |ShowAllChecked(rows, site.provider, checked)|
    ensures var step := ShowAllChecked(rows, site.provider, checked)[i];
      && step.op == Same
      && PreviewStepOk(site, step, Inventory(rows), AfterCheck(Inventory(rows), checked), true)
  {
    hide StateOk, PreviewStepOk, ShowAllChecked, AfterCheck, RecheckedInputs;
    var j := ShownCheckedFrom(rows, site.provider, checked, i);
    assert rows[j].urn in Urns(rows);
    CheckedStepOk(site, Inventory(rows), rows[j], checked);
  }

  lemma {:induction false} RecheckedPreviewOk(site: Site, rows: seq<Row>, checked: set<Urn>)
    requires DistinctUrns(rows) && Urns(rows) == site.graph.Keys
    requires forall i :: 0 <= i < |rows| ==> StateOk(site, rows[i], false, false, false)
    requires exists i :: 0 <= i < |rows| && rows[i].urn != site.provider
    requires CheckedByProvider(Inventory(rows), checked)
    ensures PreviewOk(site, RecheckedPreview(site, rows, checked).steps, Inventory(rows),
                      AfterCheck(Inventory(rows), checked), true)
  {
    hide StateOk, RefreshStepOk, PreviewStepOk, ShowRows, ShowAllChecked, AfterCheck, DistinctSteps, Inventory;
    hide Orderly, Refreshes, CheckedByProvider;
    var prior, after := Inventory(rows), AfterCheck(Inventory(rows), checked);
    var a, b := ShowRows(rows, site.provider, Refresh), ShowAllChecked(rows, site.provider, checked);
    ShowRowsEnumerate(rows, site.provider, Refresh);
    ShownCheckedEnumerate(rows, site.provider, checked);
    var k :| 0 <= k < |rows| && rows[k].urn != site.provider;
    assert rows[k].urn in Urns(rows) - {site.provider};
    UrnsEmpty(a);
    forall i | 0 <= i < |a| ensures a[i].op == Refresh && RefreshStepOk(site, a[i], prior) {
      RefreshShown(site, rows, i);
    }
    forall i | 0 <= i < |b| ensures b[i].op == Same && PreviewStepOk(site, b[i], prior, after, true) {
      CheckedShown(site, rows, checked, i);
    }
    PreviewFrom(site, prior, after, a, b, true);
  }

  lemma {:induction false} RecheckedParts(site: Site, rows: seq<Row>, checked: set<Urn>)
    requires WellFormed(site) && PriorOk(site, rows) && Urns(rows) == site.graph.Keys
    requires CheckedByProvider(Inventory(rows), checked)
    ensures AllPlaced(site, Inventory(rows))
    ensures GoalsOk(site, RecheckedPlans(site, Inventory(rows), checked), Inventory(rows))
    ensures AfterCheck(Inventory(rows), checked) ==
            DesiredRows(site, RecheckedPlans(site, Inventory(rows), checked), Inventory(rows))
    ensures DesiredOk(site, AfterCheck(Inventory(rows), checked))
  {
    hide PriorOk, StateOk, GoalsOk, DesiredOk, BindingsOk, AllReferencesOk, Hardened, DesiredRows;
    hide AfterCheck, CheckedByProvider, RecheckedPlans;
    PriorParts(site, rows);
    CompleteNotLegacy(site, rows);
    RecheckedGoals(site, Inventory(rows), checked);
    RecheckedDesiredOk(site, Inventory(rows), checked);
  }

  lemma {:induction false} RecheckedShown(site: Site, rows: seq<Row>, checked: set<Urn>)
    requires WellFormed(site) && PriorOk(site, rows) && Urns(rows) == site.graph.Keys
    requires CheckedByProvider(Inventory(rows), checked)
    ensures !RecheckedPreview(site, rows, checked).maybeCorrupt
    ensures PreviewOk(site, RecheckedPreview(site, rows, checked).steps, Inventory(rows),
                      AfterCheck(Inventory(rows), checked), true)
  {
    hide PriorOk, StateOk, PreviewOk, Hardened, AfterCheck, CheckedByProvider, ShowRows, ShowAllChecked;
    PriorParts(site, rows);
    CompleteNotLegacy(site, rows);
    SomeOtherRow(site, rows);
    RecheckedPreviewOk(site, rows, checked);
  }

  /**
   What the engine writes after the refresh the registry commands require is accepted: on every accepted list of
   the whole graph's rows, for any of the resources whose inputs a provider checks, the unchanged plan with the
   written defaults of exactly these, and its full preview.
   */
  lemma {:induction false} RecheckedPlanAccepted(site: Site, rows: seq<Row>, checked: set<Urn>)
    requires WellFormed(site) && PriorOk(site, rows) && Urns(rows) == site.graph.Keys
    requires CheckedByProvider(Inventory(rows), checked)
    ensures AllPlaced(site, Inventory(rows))
    ensures Accepts(site, RecheckedPreview(site, rows, checked),
                    SavedPlan(true, RecheckedPlans(site, Inventory(rows), checked)), rows, true)
  {
    hide PriorOk, GoalsOk, PreviewOk, DesiredOk, Accepts, DesiredRows, Inventory;
    hide RecheckedPreview, AfterCheck, CheckedByProvider, RecheckedPlans;
    RecheckedParts(site, rows, checked);
    RecheckedShown(site, rows, checked);
    PlansKeys(site, Inventory(rows), checked);
    AcceptedBy(
      site, RecheckedPreview(site, rows, checked), RecheckedPlans(site, Inventory(rows), checked), rows,
      AfterCheck(Inventory(rows), checked), true);
  }

  lemma {:induction false} PlansKeys(site: Site, prior: Rows, checked: set<Urn>)
    requires AllPlaced(site, prior)
    ensures RecheckedPlans(site, prior, checked).Keys == prior.Keys
  {
    hide RecheckedPlan, UnchangedPlan;
  }
}
