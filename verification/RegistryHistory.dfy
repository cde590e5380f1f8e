/**
 What an accepted registry plan implies, for one replay and over whole histories of replays
 (scripts/poc_registry_plan.py). The engine is a step relation: it may only be relied on to write what
 the goals say, and to fill in what they leave unknown.
 */
module RegistryHistory {
  import opened Options
  import opened Texts
  import opened Json
  import opened RegistryRows
  import opened RegistryPlan

  // ---------------------------------------------------------------- diffs

  /** The diff that takes the result of `d` on `was` back to `was`. */
  function InverseDiff(d: Diff, was: Members): Diff
    requires DiffFits(d, was)
  {
    Diff(
      Some(Entries(was, Deleted(d))),
      Some(Entries(was, Updates(d).Keys)),
      Some(Sorted(Adds(d).Keys)))
  }

  lemma {:induction false} AscendingUnique(keys: seq<Text>)
    requires Ascending(keys)
    ensures Unique(keys)
  {
    forall i, j | 0 <= i < j < |keys| ensures keys[i] != keys[j] {
      BelowIrreflexive(keys[i]);
      assert Below(keys[i], keys[j]);
    }
  }

  function Elements(s: seq<Text>): set<Text> {
    set k | k in s
  }

  lemma {:induction false} UniqueCount(s: seq<Text>)
    requires Unique(s)
    ensures |Elements(s)| == |s|
  {
    if s != [] {
      var front, last := s[..|s| - 1], s[|s| - 1];
      UniqueCount(front);
      assert s == front + [last];
      assert Elements(s) == Elements(front) + {last};
      assert last !in front;
    }
  }

  lemma {:induction false} DiffKeys(d: Diff, was: Members, now: Members)
    requires ApplyDiff(d, was) == Some(now)
    ensures now.Keys == was.Keys - Deleted(d) + Adds(d).Keys
    ensures forall k :: k in now && k !in Adds(d) && k !in Updates(d) ==> k in was && now[k] == was[k]
  {
  }

  lemma {:induction false} DiffSize(d: Diff, was: Members, now: Members)
    requires ApplyDiff(d, was) == Some(now)
    ensures |now| == |was| + |Adds(d)| - |Deletes(d)|
  {
    DiffKeys(d, was, now);
    UniqueCount(Deletes(d));
    assert Deleted(d) == Elements(Deletes(d));
    assert |now.Keys| == |was.Keys - Deleted(d)| + |Adds(d).Keys|;
  }

  function Entries(m: Members, keys: set<Text>): (r: Members)
    requires keys <= m.Keys
    ensures r.Keys == keys
  {
    map k | k in keys :: m[k]
  }

  /** Undoing a patch: take the additions away, put the deletions and the old values back. */
  lemma {:induction false} PatchInverse(was: Members, dels: set<Text>, adds: Members, updates: Members)
    requires adds.Keys !! was.Keys && updates.Keys <= was.Keys && dels <= was.Keys && dels !! updates.Keys
    ensures var now := (was - dels) + adds + updates;
      (now - adds.Keys) + Entries(was, dels) + Entries(was, updates.Keys) == was
  {
  }

  lemma {:induction false} InverseParts(d: Diff, was: Members)
    requires DiffFits(d, was)
    ensures var back := InverseDiff(d, was);
      && Adds(back) == Entries(was, Deleted(d)) && Updates(back) == Entries(was, Updates(d).Keys)
      && Unique(Deletes(back)) && Deleted(back) == Adds(d).Keys
  {
    var names := Sorted(Adds(d).Keys);
    AscendingUnique(names);
    SortedElements(Adds(d).Keys, names);
    assert Deleted(InverseDiff(d, was)) == Elements(names);
  }

  lemma {:induction false} DiffInverse(d: Diff, was: Members, now: Members)
    requires ApplyDiff(d, was) == Some(now)
    ensures ApplyDiff(InverseDiff(d, was), now) == Some(was)
  {
    var back := InverseDiff(d, was);
    InverseParts(d, was);
    DiffKeys(d, was, now);
    assert DiffFits(back, now);
    PatchInverse(was, Deleted(d), Adds(d), Updates(d));
  }

  lemma {:induction false} SortedElements(keys: set<Text>, s: seq<Text>)
    requires s == Sorted(keys)
    ensures Elements(s) == keys
  {
  }

  /** A diff gives the old names less the deleted, plus the added; nothing else changes, and it can be undone. */
  lemma {:induction false} DiffEffect(d: Diff, was: Members, now: Members)
    requires ApplyDiff(d, was) == Some(now)
    ensures now.Keys == was.Keys - Deleted(d) + Adds(d).Keys
    ensures |now| == |was| + |Adds(d)| - |Deletes(d)|
    ensures forall k :: k in now && k !in Adds(d) && k !in Updates(d) ==> k in was && now[k] == was[k]
    ensures ApplyDiff(InverseDiff(d, was), now) == Some(was)
  {
    DiffKeys(d, was, now);
    DiffSize(d, was, now);
    DiffInverse(d, was, now);
  }

  // ---------------------------------------------------------------- the provider's recheck

  /** Popping one name and setting another commute. */
  lemma {:induction false} PopUpdate(m: Members, key: Text, expected: Value, other: Text, v: Value)
    requires key != other && Pop(m, key, expected).Some?
    ensures Pop(m[other := v], key, expected) == Some(Pop(m, key, expected).value[other := v])
  {
    assert m[other := v] - {key} == (m - {key})[other := v];
  }

  lemma {:induction false} StripUpdate(site: Site, m: Members, other: Text, v: Value)
    requires other == SCANNING || other == DKIM
    requires StripDefaults(site, m).Some?
    ensures StripDefaults(site, m[other := v]) == Some(StripDefaults(site, m).value[other := v])
  {
    KeysDiffer();
    PopUpdate(m, REGION, site.region, other, v);
    PopUpdate(Pop(m, REGION, site.region).value, TAGS_ALL, site.tags, other, v);
  }

  /** The block the recheck writes at `key`: its one setting and empty defaults. */
  function FreshBlock(setting: Text, v: Value): Members {
    map[setting := v, DEFAULTS := EMPTY]
  }

  lemma {:induction false} FreshBlockStrips(m: Members, key: Text, setting: Text, v: Value)
    requires setting != DEFAULTS
    ensures StripBlock(m[key := Obj(FreshBlock(setting, v))], key) == Some(m[key := Obj(map[setting := v])])
  {
    var block := Obj(FreshBlock(setting, v));
    assert FreshBlock(setting, v) - {DEFAULTS} == map[setting := v];
    assert m[key := block][key := Obj(map[setting := v])] == m[key := Obj(map[setting := v])];
  }

  /** What the recheck diff makes of inputs without defaults, once its own defaults are popped again. */
  lemma {:induction false} RecheckApplies(base: Members, key: Text, setting: Text, v: Value)
    requires key in base && DEFAULTS !in base && key != DEFAULTS
    ensures var d := Diff(Some(map[DEFAULTS := EMPTY]), Some(map[key := Obj(FreshBlock(setting, v))]), None);
      && ApplyDiff(d, base).Some?
      && Pop(ApplyDiff(d, base).value, DEFAULTS, EMPTY) == Some(base[key := Obj(FreshBlock(setting, v))])
  {
    var d := Diff(Some(map[DEFAULTS := EMPTY]), Some(map[key := Obj(FreshBlock(setting, v))]), None);
    var result := ApplyDiff(d, base).value;
    assert result - {DEFAULTS} == base[key := Obj(FreshBlock(setting, v))];
  }

  /** A block that equals the fresh one up to defaults makes the normal forms agree. */
  lemma {:induction false} BlockReplaced(checked: Members, key: Text, setting: Text, v: Value)
    requires key in checked && PyEq(checked[key], Obj(map[setting := v]))
    ensures SameMembers(checked[key := Obj(map[setting := v])], checked)
  {
  }

  /** Stripping the normal form's source again after the recheck gives the normal form with a plain block. */
  lemma {:induction false} BlockRecheck(
    site: Site, base: Members, b: Members, checked: Members, key: Text, setting: Text, v: Value)
    requires key == SCANNING || key == DKIM
    requires setting != DEFAULTS && DEFAULTS !in base
    requires StripDefaults(site, base) == Some(b) && key in b && StripBlock(b, key) == Some(checked)
    requires PyEq(checked[key], Obj(map[setting := v]))
    ensures var now := base[key := Obj(FreshBlock(setting, v))];
      && StripDefaults(site, now) == Some(b[key := Obj(FreshBlock(setting, v))])
      && var again := StripBlock(b[key := Obj(FreshBlock(setting, v))], key);
         again.Some? && SameMembers(again.value, checked)
  {
    StripUpdate(site, base, key, Obj(FreshBlock(setting, v)));
    FreshBlockStrips(b, key, setting, v);
    assert b[key := Obj(map[setting := v])] == checked[key := Obj(map[setting := v])];
    BlockReplaced(checked, key, setting, v);
  }

  /** Stripping provider defaults adds no name. */
  lemma {:induction false} StrippedHas(site: Site, m: Members, key: Text)
    requires StripDefaults(site, m).Some? && key in StripDefaults(site, m).value
    ensures key in m
  {
  }

  lemma {:induction false} EcrRecheck(site: Site, inputs: Members, checked: Members, base: Members)
    requires EcrCheckedInputs(site, inputs) == Some(checked)
    requires SCANNING in checked && PyEq(checked[SCANNING], Obj(map[SCAN_ON_PUSH := Bool(true)]))
    requires Pop(inputs, DEFAULTS, EMPTY) == Some(base)
    ensures ApplyDiff(RecheckDiff(Ecr), base).Some?
    ensures var again := EcrCheckedInputs(site, ApplyDiff(RecheckDiff(Ecr), base).value);
      again.Some? && SameMembers(again.value, checked)
  {
    hide StripDefaults, StripBlock, SameMembers, PyEq, ApplyDiff;
    KeysDiffer();
    if SCANNING in StripDefaults(site, base).value {
      StrippedHas(site, base, SCANNING);
    }
    BlockRecheck(site, base, StripDefaults(site, base).value, checked, SCANNING, SCAN_ON_PUSH, Bool(true));
    RecheckApplies(base, SCANNING, SCAN_ON_PUSH, Bool(true));
  }

  lemma {:induction false} SesRecheck(site: Site, inputs: Members, checked: Members, base: Members)
    requires MailCheckedInputs(site, Ses, inputs) == Some(checked)
    requires PyEq(checked[DKIM], Obj(map[NEXT_KEY := RSA_2048]))
    requires Pop(inputs, DEFAULTS, EMPTY) == Some(base)
    ensures ApplyDiff(RecheckDiff(Ses), base).Some?
    ensures var again := MailCheckedInputs(site, Ses, ApplyDiff(RecheckDiff(Ses), base).value);
      again.Some? && SameMembers(again.value, checked)
  {
    hide StripDefaults, StripBlock, SameMembers, PyEq, ApplyDiff;
    KeysDiffer();
    StrippedHas(site, base, DKIM);
    BlockRecheck(site, base, StripDefaults(site, base).value, checked, DKIM, NEXT_KEY, RSA_2048);
    RecheckApplies(base, DKIM, NEXT_KEY, RSA_2048);
  }

  /** The provider check's own goal diff, on a row of that kind. */
  predicate IsRecheck(goal: Goal) {
    goal.kind in {Ecr, Ses, Dns} && SameDiff(goal.inputDiff, RecheckDiff(goal.kind))
  }

  /** What `RecheckNeutral` says of one goal and row. */
  predicate Neutral(site: Site, goal: Goal, row: Row) {
    var r := RecheckInputs(site, goal, Some(row));
    && r.Rechecked?
    && SameResult(SemanticInputs(site, row.kind, r.inputs), SemanticInputs(site, row.kind, row.inputs))
  }

  lemma {:induction false} NeutralBy(site: Site, goal: Goal, row: Row, base: Members, checked: Members)
    requires goal.kind == row.kind && IsRecheck(goal)
    requires Pop(row.inputs, DEFAULTS, EMPTY) == Some(base) && ApplyDiff(RecheckDiff(row.kind), base).Some?
    requires SemanticInputs(site, row.kind, row.inputs) == Some(checked)
    requires var again := SemanticInputs(site, row.kind, ApplyDiff(RecheckDiff(row.kind), base).value);
      again.Some? && SameMembers(again.value, checked)
    ensures Neutral(site, goal, row)
  {
  }

  lemma {:induction false} EcrNeutral(site: Site, goal: Goal, row: Row)
    requires row.kind == Ecr == goal.kind && IsRecheck(goal) && RepositoryOk(site, row, false)
    ensures Neutral(site, goal, row)
  {
    var base := Pop(row.inputs, DEFAULTS, EMPTY).value;
    var checked := EcrCheckedInputs(site, row.inputs).value;
    RepositoryBlock(site, row, checked);
    EcrRecheck(site, row.inputs, checked, base);
    NeutralBy(site, goal, row, base, checked);
  }

  lemma {:induction false} SesNeutral(site: Site, goal: Goal, row: Row, checked: Members, preview: bool)
    requires row.kind == Ses == goal.kind && IsRecheck(goal)
    requires MailCheckedInputs(site, Ses, row.inputs) == Some(checked) && IdentityOk(site, row, checked, false, preview)
    ensures Neutral(site, goal, row)
  {
    var base := Pop(row.inputs, DEFAULTS, EMPTY).value;
    IdentityBlock(site, row, checked, preview);
    SesRecheck(site, row.inputs, checked, base);
    NeutralBy(site, goal, row, base, checked);
  }

  lemma {:induction false} DnsNeutral(site: Site, goal: Goal, row: Row)
    requires row.kind == Dns == goal.kind && IsRecheck(goal) && MailCheckedInputs(site, Dns, row.inputs).Some?
    ensures Neutral(site, goal, row)
  {
    var base := Pop(row.inputs, DEFAULTS, EMPTY).value;
    var result := base[DEFAULTS := EMPTY];
    assert Deleted(RecheckDiff(Dns)) == {} && DEFAULTS !in base;
    assert (base - {}) + map[DEFAULTS := EMPTY] + map[] == result;
    assert ApplyDiff(RecheckDiff(Dns), base) == Some(result);
    assert result - {DEFAULTS} == base;
    assert SameMembers(base, base);
    hide RecheckInputs, SameMembers;
    NeutralBy(site, goal, row, base, base);
  }

  /** An observed row always survives the recheck reconstruction, with the same semantic inputs. */
  lemma {:induction false} RecheckNeutral(site: Site, goal: Goal, row: Row, legacy: bool, preview: bool)
    requires StateOk(site, row, false, legacy, preview) && goal.kind == row.kind && IsRecheck(goal)
    ensures Neutral(site, goal, row)
  {
    match row.kind
    case Ecr => EcrNeutral(site, goal, row);
    case Ses => SesNeutral(site, goal, row, MailCheckedInputs(site, Ses, row.inputs).value, preview);
    case Dns => DnsNeutral(site, goal, row);
  }

  lemma {:induction false} RepositoryBlock(site: Site, row: Row, checked: Members)
    requires RepositoryOk(site, row, false) && EcrCheckedInputs(site, row.inputs) == Some(checked)
    ensures SCANNING in checked && PyEq(checked[SCANNING], Obj(map[SCAN_ON_PUSH := Bool(true)]))
  {
    var expected := RepositoryInputs(site, site.repositories[row.urn].name);
    SameMembersPointwise(checked, expected);
    RepositoryInputsAt(site, site.repositories[row.urn].name);
  }

  lemma {:induction false} RepositoryInputsAt(site: Site, name: Text)
    ensures var m := RepositoryInputs(site, name);
      SCANNING in m && m[SCANNING] == Obj(map[SCAN_ON_PUSH := Bool(true)])
  {
  }

  lemma {:induction false} IdentityBlock(site: Site, row: Row, checked: Members, preview: bool)
    requires IdentityOk(site, row, checked, false, preview)
    ensures DKIM in checked && PyEq(checked[DKIM], Obj(map[NEXT_KEY := RSA_2048]))
  {
    SameMembersPointwise(checked, IdentityInputs(site));
    assert DKIM != TAGS;
  }

  // ---------------------------------------------------------------- retained rows

  /** The same resource: same owner, same outputs, same inputs up to provider defaults. */
  predicate Keeps(site: Site, was: Row, now: Row) {
    && Ownership(now) == Ownership(was)
    && SameMembers(StableOutputs(was.kind, now.outputs), StableOutputs(was.kind, was.outputs))
    && SameResult(SemanticInputs(site, was.kind, now.inputs), SemanticInputs(site, was.kind, was.inputs))
  }

  /** Outputs without the values a refresh may change (the mail identity's verification telemetry). */
  function StableOutputs(kind: Kind, outputs: Members): Members {
    ShownOutputs(kind, outputs, true)
  }

  lemma {:induction false} KeepsTransitive(site: Site, a: Row, b: Row, c: Row)
    requires Keeps(site, a, b) && Keeps(site, b, c)
    ensures Keeps(site, a, c)
  {
  }

  /** A row an accepted plan retains is described by its goal exactly as it was observed. */
  lemma {:induction false} RetainedKeeps(site: Site, urn: Urn, plan: ResourcePlan, prior: Row)
    requires Desired(site, urn, plan, Some(prior)).Some?
    requires ExpectedOperation(site, urn, Some(prior)) == Same
    ensures Keeps(site, prior, Desired(site, urn, plan, Some(prior)).value)
  {
    hide StateOk, EcrCheckedInputs, MailCheckedInputs, VerificationTelemetry;
    hide RedactedOutputs, LegacyInputs, RecheckDiff;
    var values := GoalValues(site, plan.goal, Some(prior), false).value;
    EmptyDiffApplies(plan.goal.outputDiff, prior.outputs);
    if RecheckInputs(site, plan.goal, Some(prior)).NotRechecked? {
      EmptyDiffApplies(plan.goal.inputDiff, prior.inputs);
    }
  }

  lemma {:induction false} EmptyDiffApplies(d: Diff, was: Members)
    requires EmptyDiff(d)
    ensures ApplyDiff(d, was) == Some(was)
  {
    assert Deleted(d) == {};
    assert (was - Deleted(d)) + Adds(d) + Updates(d) == was;
  }

  // ---------------------------------------------------------------- one replay

  /** `actual` has every value `goal` knows; the engine fills in the unknown ones, and wraps secrets anew. */
  predicate Agrees(goal: Value, actual: Value) {
    || goal == UNKNOWN_VALUE
    || match goal
       case Obj(m) =>
         actual.Obj? && (if Envelope(m) then Envelope(actual.members)
                         else m.Keys == actual.members.Keys && forall k :: k in m ==> Agrees(m[k], actual.members[k]))
       case Arr(items) =>
         actual.Arr? && |items| == |actual.items|
         && forall i :: 0 <= i < |items| ==> Agrees(items[i], actual.items[i])
       case _ => goal == actual
  }

  predicate InputsAgree(goal: Members, actual: Members) {
    goal.Keys == actual.Keys && forall k :: k in goal ==> Agrees(goal[k], actual[k])
  }

  /** A link to a provider that is created in the same run has no id yet in the goal, and that provider's afterwards. */
  predicate LinkAgrees(goal: Reference, actual: Reference) {
    goal == actual || (goal.ProvidedBy? && goal.id == UNKNOWN && actual.ProvidedBy? && actual.urn == goal.urn)
  }

  /** The same owner, but for the ids the engine learns on the way. */
  predicate OwnedAlike(goal: Row, now: Row) {
    && Ownership(now).(id := [], provider := NoProvider) == Ownership(goal).(id := [], provider := NoProvider)
    && LinkAgrees(goal.provider, now.provider)
  }

  predicate Created(goal: Row, now: Row) {
    OwnedAlike(goal, now) && InputsAgree(goal.inputs, now.inputs)
  }

  /** What replaying a saved plan makes of one goal. */
  predicate Carried(site: Site, op: Operation, goal: Row, now: Row) {
    match op
    case Same => Keeps(site, goal, now)
    case Update => Ownership(now) == Ownership(goal) && InputsAgree(goal.inputs, now.inputs)
    case _ => Created(goal, now)
  }

  /** What it does to the rows: retained ones stay, the others become what their goals know. */
  predicate Replays(site: Site, prior: Rows, desired: Rows, after: Rows) {
    && after.Keys == desired.Keys
    && forall u :: u in desired ==> Carried(site, ExpectedOperation(site, u, Find(prior, u)), desired[u], after[u])
  }

  /** The one row that may change hands of its settings: the provider of the legacy checkpoint. */
  predicate Hardened(site: Site, prior: Rows, u: Urn) {
    u == site.provider && u in prior && SameMembers(prior[u].inputs, LegacyInputs(site))
  }

  ghost predicate ReplayStep(site: Site, requireRefresh: bool, before: Rows, after: Rows) {
    exists preview, saved, rows ::
      Accepts(site, preview, saved, rows, requireRefresh)
      && before == Inventory(rows) && Replays(site, before, DesiredRows(site, saved.plans, before), after)
  }

  /** A row the plan expects to stay is kept by the goal, and by the replay of the goal. */
  lemma {:induction false} RetainedAfter(site: Site, u: Urn, plan: ResourcePlan, prior: Row, after: Row)
    requires Desired(site, u, plan, Some(prior)).Some? && ExpectedOperation(site, u, Some(prior)) == Same
    requires Keeps(site, Desired(site, u, plan, Some(prior)).value, after)
    ensures Keeps(site, prior, after)
  {
    RetainedKeeps(site, u, plan, prior);
    KeepsTransitive(site, prior, Desired(site, u, plan, Some(prior)).value, after);
  }

  lemma {:induction false} LegacyHasNoAccounts(site: Site)
    ensures ACCOUNTS !in LegacyInputs(site)
  {
  }

  lemma {:induction false} GoalHasAccounts(site: Site, plan: ResourcePlan, prior: Option<Row>)
    requires WellFormed(site) && Desired(site, site.provider, plan, prior).Some?
    ensures ACCOUNTS in Desired(site, site.provider, plan, prior).value.inputs
    ensures Desired(site, site.provider, plan, prior).value.kind == AWS_PROVIDER
  {
    hide GoalValues, LegacyInputs;
    var goal := Desired(site, site.provider, plan, prior).value;
    assert ProviderOk(site, goal, false);
  }

  /** However a provider's goal is carried out, its inputs have the same names. */
  lemma {:induction false} CarriedNames(site: Site, op: Operation, goal: Row, now: Row)
    requires Carried(site, op, goal, now) && goal.kind == AWS_PROVIDER
    ensures now.inputs.Keys == goal.inputs.Keys
  {
    hide VerificationTelemetry, RedactedOutputs, EcrCheckedInputs, MailCheckedInputs, Ownership;
    SameMembersPointwise(now.inputs, goal.inputs);
  }

  /** Inputs that list accounts are not the legacy provider's. */
  lemma {:induction false} NotLegacy(site: Site, inputs: Members)
    requires ACCOUNTS in inputs
    ensures !SameMembers(inputs, LegacyInputs(site))
  {
    LegacyHasNoAccounts(site);
    SameMembersPointwise(inputs, LegacyInputs(site));
  }

  /** After any accepted replay the provider no longer has the legacy settings. */
  lemma {:induction false} ProviderHardened(
    site: Site, plan: ResourcePlan, prior: Option<Row>, op: Operation, after: Row)
    requires WellFormed(site) && Desired(site, site.provider, plan, prior).Some?
    requires Carried(site, op, Desired(site, site.provider, plan, prior).value, after)
    ensures !SameMembers(after.inputs, LegacyInputs(site))
  {
    hide Desired, VerificationTelemetry, RedactedOutputs, LegacyInputs, EcrCheckedInputs, MailCheckedInputs;
    var goal := Desired(site, site.provider, plan, prior).value;
    GoalHasAccounts(site, plan, prior);
    CarriedNames(site, op, goal, after);
    NotLegacy(site, after.inputs);
  }

  lemma {:induction false} PriorInGraph(site: Site, rows: seq<Row>)
    requires WellFormed(site) && PriorOk(site, rows)
    ensures Inventory(rows).Keys <= site.graph.Keys
  {
  }

  /** What the gate passes on to the replay. */
  lemma {:induction false} AcceptedGoals(
    site: Site, preview: Preview, saved: SavedPlan, rows: seq<Row>, requireRefresh: bool)
    requires WellFormed(site) && Accepts(site, preview, saved, rows, requireRefresh)
    ensures saved.plans.Keys == site.graph.Keys && GoalsOk(site, saved.plans, Inventory(rows))
    ensures Inventory(rows).Keys <= site.graph.Keys
  {
    PriorInGraph(site, rows);
  }

  lemma {:induction false} PlanRetains(site: Site, plans: Plans, before: Rows, after: Rows, u: Urn)
    requires u in plans && u in before && !Hardened(site, before, u)
    requires GoalsOk(site, plans, before) && Replays(site, before, DesiredRows(site, plans, before), after)
    ensures u in after && Keeps(site, before[u], after[u])
  {
    assert u in DesiredRows(site, plans, before) && Find(before, u) == Some(before[u]);
    assert ExpectedOperation(site, u, Find(before, u)) == Same;
    RetainedAfter(site, u, plans[u], before[u], after[u]);
  }

  lemma {:induction false} PlanHardens(site: Site, plans: Plans, before: Rows, after: Rows)
    requires WellFormed(site) && site.provider in plans
    requires GoalsOk(site, plans, before) && Replays(site, before, DesiredRows(site, plans, before), after)
    ensures site.provider in after && !SameMembers(after[site.provider].inputs, LegacyInputs(site))
  {
    var u := site.provider;
    assert u in DesiredRows(site, plans, before);
    ProviderHardened(site, plans[u], Find(before, u), ExpectedOperation(site, u, Find(before, u)), after[u]);
  }

  /** The resource plans of a step. */
  lemma {:induction false} StepPlans(site: Site, requireRefresh: bool, before: Rows, after: Rows) returns (plans: Plans)
    requires WellFormed(site) && ReplayStep(site, requireRefresh, before, after)
    ensures plans.Keys == site.graph.Keys && before.Keys <= site.graph.Keys
    ensures GoalsOk(site, plans, before) && Replays(site, before, DesiredRows(site, plans, before), after)
  {
    var preview, saved, rows :|
      Accepts(site, preview, saved, rows, requireRefresh)
      && before == Inventory(rows) && Replays(site, before, DesiredRows(site, saved.plans, before), after);
    AcceptedGoals(site, preview, saved, rows, requireRefresh);
    plans := saved.plans;
  }

  /** Nothing observed is lost or changes owner, and every row but a hardened provider is kept. */
  predicate KeepsRows(site: Site, before: Rows, after: Rows) {
    forall u :: u in before ==>
      && u in after
      && (if Hardened(site, before, u) then Ownership(after[u]) == Ownership(before[u])
          else Keeps(site, before[u], after[u]))
  }

  /** The rows observed before are kept, the whole graph exists, and its provider has the hardened settings. */
  predicate Extends(site: Site, before: Rows, after: Rows) {
    && after.Keys == site.graph.Keys && KeepsRows(site, before, after)
    && site.provider in after && !SameMembers(after[site.provider].inputs, LegacyInputs(site))
  }

  lemma {:induction false} PlanOwns(site: Site, plans: Plans, before: Rows, after: Rows, u: Urn)
    requires u in plans && u in before
    requires GoalsOk(site, plans, before) && Replays(site, before, DesiredRows(site, plans, before), after)
    ensures u in after && Ownership(after[u]) == Ownership(before[u])
  {
    hide StateOk, GoalValues, SameMembers, LegacyInputs, SemanticInputs, StableOutputs, InputsAgree;
    assert u in DesiredRows(site, plans, before) && Find(before, u) == Some(before[u]);
    GoalOwns(site, u, plans[u], before[u]);
  }

  lemma {:induction false} GoalOwns(site: Site, u: Urn, plan: ResourcePlan, prior: Row)
    requires Desired(site, u, plan, Some(prior)).Some?
    ensures Ownership(Desired(site, u, plan, Some(prior)).value) == Ownership(prior)
    ensures ExpectedOperation(site, u, Some(prior)) == Same || ExpectedOperation(site, u, Some(prior)) == Update
  {
    hide StateOk, GoalValues, SameMembers, LegacyInputs;
  }

  lemma {:induction false} PlansExtend(site: Site, plans: Plans, before: Rows, after: Rows)
    requires WellFormed(site) && plans.Keys == site.graph.Keys && before.Keys <= site.graph.Keys
    requires GoalsOk(site, plans, before) && Replays(site, before, DesiredRows(site, plans, before), after)
    ensures Extends(site, before, after)
  {
    hide Desired, Keeps, LegacyInputs, Carried, Ownership, Hardened;
    PlanHardens(site, plans, before, after);
    forall u | u in before
      ensures if Hardened(site, before, u) then Ownership(after[u]) == Ownership(before[u])
              else Keeps(site, before[u], after[u])
    {
      PlanOwns(site, plans, before, after, u);
      if !Hardened(site, before, u) {
        PlanRetains(site, plans, before, after, u);
      }
    }
  }

  /** One accepted plan and its replay extend the observed rows. */
  lemma {:induction false} ReplayExtends(site: Site, requireRefresh: bool, before: Rows, after: Rows)
    requires WellFormed(site) && ReplayStep(site, requireRefresh, before, after)
    ensures Extends(site, before, after)
  {
    var plans := StepPlans(site, requireRefresh, before, after);
    PlansExtend(site, plans, before, after);
  }

  // ---------------------------------------------------------------- histories

  /** Rows observed before, between and after a series of accepted plans, each replayed in full. */
  ghost predicate History(site: Site, requireRefresh: bool, states: seq<Rows>) {
    forall i :: 0 <= i < |states| - 1 ==> ReplayStep(site, requireRefresh, states[i], states[i + 1])
  }

  predicate Chain(site: Site, states: seq<Rows>) {
    forall i :: 0 <= i < |states| - 1 ==> Extends(site, states[i], states[i + 1])
  }

  lemma {:induction false} HistoryExtends(site: Site, requireRefresh: bool, states: seq<Rows>)
    requires WellFormed(site) && History(site, requireRefresh, states)
    ensures Chain(site, states)
  {
    forall i | 0 <= i < |states| - 1 ensures Extends(site, states[i], states[i + 1]) {
      ReplayExtends(site, requireRefresh, states[i], states[i + 1]);
    }
  }

  lemma {:induction false} KeptTwice(site: Site, a: Rows, b: Rows, c: Rows)
    requires KeepsRows(site, a, b) && KeepsRows(site, b, c) && forall u :: !Hardened(site, b, u)
    ensures KeepsRows(site, a, c)
  {
    hide Hardened;
    forall u | u in a
      ensures u in c
      ensures if Hardened(site, a, u) then Ownership(c[u]) == Ownership(a[u]) else Keeps(site, a[u], c[u])
    {
      KeptOnce(site, b[u], c[u]);
      if !Hardened(site, a, u) {
        KeepsTransitive(site, a[u], b[u], c[u]);
      }
    }
  }

  lemma {:induction false} KeptOnce(site: Site, was: Row, now: Row)
    requires Keeps(site, was, now)
    ensures Ownership(now) == Ownership(was)
  {
    hide SemanticInputs, StableOutputs;
  }

  lemma {:induction false} ExtendedTwice(site: Site, a: Rows, b: Rows, c: Rows)
    requires Extends(site, a, b) && Extends(site, b, c)
    ensures Extends(site, a, c)
  {
    hide KeepsRows;
    KeptTwice(site, a, b, c);
  }

  lemma {:induction false} ChainExtends(site: Site, states: seq<Rows>, i: nat, j: nat)
    requires Chain(site, states) && i < j < |states|
    ensures Extends(site, states[i], states[j])
    decreases j
  {
    hide Extends;
    assert Extends(site, states[j - 1], states[j - 1 + 1]);
    if i < j - 1 {
      ChainExtends(site, states, i, j - 1);
      ExtendedTwice(site, states[i], states[j - 1], states[j]);
    }
  }

  /**
   Over any history: whatever was observed once is there ever after, owned as it was and, the legacy provider
   aside, configured as it was; from the first replay on every state is the whole graph.
   */
  lemma {:induction false} HistoryKeeps(site: Site, requireRefresh: bool, states: seq<Rows>, i: nat, j: nat)
    requires WellFormed(site) && History(site, requireRefresh, states) && i < j < |states|
    ensures states[j].Keys == site.graph.Keys && KeepsRows(site, states[i], states[j])
    ensures forall u :: !Hardened(site, states[j], u)
  {
    hide KeepsRows;
    HistoryExtends(site, requireRefresh, states);
    ChainExtends(site, states, i, j);
  }

  /** Every plan accepted after the first replay consists of `same` steps only, and so does its preview. */
  lemma {:induction false} LaterPlansOnlySame(
    site: Site, requireRefresh: bool, states: seq<Rows>, i: nat, preview: Preview, saved: SavedPlan, rows: seq<Row>)
    requires WellFormed(site) && History(site, requireRefresh, states) && 1 <= i < |states|
    requires Accepts(site, preview, saved, rows, requireRefresh) && Inventory(rows) == states[i]
    ensures forall u :: u in site.graph ==> u in saved.plans && saved.plans[u].steps == [Same]
    ensures forall k :: 0 <= k < |preview.steps| ==> preview.steps[k].op == Refresh || preview.steps[k].op == Same
  {
    hide Desired, Keeps, LegacyInputs, PriorOk, DesiredOk, PreviewOk, ReplayStep;
    HistoryKeeps(site, requireRefresh, states, i - 1, i);
    AcceptedGoals(site, preview, saved, rows, requireRefresh);
    OnlySame(site, saved.plans, states[i], preview.steps, requireRefresh);
  }

  lemma {:induction false} OnlySame(site: Site, plans: Plans, before: Rows, steps: seq<Step>, requireRefresh: bool)
    requires plans.Keys == site.graph.Keys == before.Keys && GoalsOk(site, plans, before)
    requires forall u :: !Hardened(site, before, u)
    requires PreviewOk(site, steps, before, DesiredRows(site, plans, before), requireRefresh)
    ensures forall u :: u in site.graph ==> plans[u].steps == [Same]
    ensures forall k :: 0 <= k < |steps| ==> steps[k].op == Refresh || steps[k].op == Same
  {
    forall u | u in site.graph ensures plans[u].steps == [Same] {
      PlanSteps(site, u, plans[u], before);
    }
    forall k | 0 <= k < |steps| ensures steps[k].op == Refresh || steps[k].op == Same {
      StepOperation(site, steps, before, DesiredRows(site, plans, before), requireRefresh, k);
    }
  }

  lemma {:induction false} PlanSteps(site: Site, u: Urn, plan: ResourcePlan, before: Rows)
    requires u in before && !Hardened(site, before, u) && Desired(site, u, plan, Find(before, u)).Some?
    ensures plan.steps == [Same]
  {
  }

  /** What an accepted preview shows for one step. */
  lemma {:induction false} StepOperation(
    site: Site, steps: seq<Step>, before: Rows, desired: Rows, requireRefresh: bool, k: nat)
    requires PreviewOk(site, steps, before, desired, requireRefresh) && k < |steps|
    ensures if k < Refreshes(steps) then steps[k].op == Refresh && steps[k].urn in before
            else steps[k].op == (if steps[k].urn in before then Same else Create) && steps[k].urn in site.graph
    ensures steps[k].urn != site.provider
  {
  }

}
