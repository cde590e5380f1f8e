/**
 The no-change gate (scripts/poc_workload_reconciliation.py): whether a saved plan and its preview leave an
 authenticated graph of resource rows exactly as it is. Rows, goals and steps stay the JSON they arrive as.
 */
module NoChange {
  import opened Options
  import opened Texts
  import opened Json
  import opened CanonicalJson
  import opened RegistryRows
  import opened Redaction

  const URN: Text := T("urn")
  const TYPE: Text := T("type")
  const CUSTOM: Text := T("custom")
  const PARENT: Text := T("parent")
  const PROVIDER: Text := T("provider")
  const INPUTS: Text := T("inputs")
  const OUTPUTS: Text := T("outputs")
  const DEPENDENCIES: Text := T("dependencies")
  const PROPERTY_DEPENDENCIES: Text := T("propertyDependencies")
  const ALIASES: Text := T("aliases")
  const PROTECT: Text := T("protect")
  const GOAL: Text := T("goal")
  const STEPS: Text := T("steps")
  const STATE: Text := T("state")
  const SEED: Text := T("seed")
  const INPUT_DIFF: Text := T("inputDiff")
  const OUTPUT_DIFF: Text := T("outputDiff")
  const ADDS: Text := T("adds")
  const UPDATES: Text := T("updates")
  const DELETES: Text := T("deletes")
  const STRUCTURED_ALIASES: Text := T("structuredAliases")
  const REPLACE_FIRST: Text := T("deleteBeforeReplace")
  const OP: Text := T("op")
  const OLD_STATE: Text := T("oldState")
  const NEW_STATE: Text := T("newState")
  const MANIFEST: Text := T("manifest")
  const PLANS: Text := T("resourcePlans")
  const MAGIC: Text := T("magic")
  const CORRUPT: Text := T("maybeCorrupt")
  const SUMMARY: Text := T("changeSummary")
  const SAME_OP: Text := T("same")

  const NOTHING: Value := Obj(map[])
  const BLANK: Value := Str([])

  /**
   The names and values the gate pins: field names of states, goals, plans and steps, the defaults of goal
   fields, and the alias tables. `seedLength` is the length of strictly decoded base64, if it is any.
   */
  datatype Schema = Schema(
    prefix: Text, root: Text, iam: Text, providers: Text, secretVersion: Text, secretInputs: set<Text>,
    stateFields: set<Text>, goalFields: set<Text>, unsafe: set<Text>, observations: set<Text>,
    defaults: Members, stepFields: set<Text>, explanations: set<Text>, previewFields: set<Text>,
    savedFields: set<Text>, manifestFields: set<Text>,
    stateAliases: (Text, Text) -> Value, structuredAliases: Text -> Value, seedLength: Text -> Option<nat>,
    version: Text, magic: Text)

  /** `_same`: equal as canonical text, so a boolean is never a number. */
  predicate Same(a: Value, b: Value) {
    Print(a) == Print(b)
  }

  /** `_object`. */
  predicate Fields(v: Value, required: set<Text>, allowed: set<Text>) {
    v.Obj? && required <= v.members.Keys <= allowed
  }

  predicate NoneSet(m: Members, keys: set<Text>) {
    forall k :: k in keys ==> !Truthy(Get(m, k, Null))
  }

  // ---------------------------------------------------------------- the inventory

  /** Where the last `::` of `t` starts. */
  function LastSeparator(t: Text): (r: Option<nat>)
    ensures r.Some? ==> r.value + 2 <= |t|
  {
    if |t| < 2 then None
    else if t[|t| - 2] == 0x3A && t[|t| - 1] == 0x3A then Some(|t| - 2)
    else LastSeparator(t[..|t| - 1])
  }

  /** `t.rsplit("::", 1)[-1]`. */
  function LastPart(t: Text): Text {
    var at := LastSeparator(t);
    if at.Some? then t[at.value + 2..] else t
  }

  /** A secret version keeps its secret wrapped. */
  predicate SecretInputsOk(schema: Schema, row: Members) {
    Get(row, TYPE, Null) == Str(schema.secretVersion) && Get(row, INPUTS, NOTHING).Obj? ==>
      forall k :: k in schema.secretInputs && k in Get(row, INPUTS, NOTHING).members ==>
        var v := Get(row, INPUTS, NOTHING).members[k];
        v.Obj? && Envelope(v.members)
  }

  /** What `_inventory` requires of one row by itself. */
  predicate RowOk(schema: Schema, row: Value) {
    && Fields(row, {URN, TYPE, CUSTOM}, schema.stateFields)
    && var m := row.members;
    && URN in m && TYPE in m && CUSTOM in m
    && m[URN].Str? && schema.prefix <= m[URN].s
    && m[CUSTOM].Bool? && m[TYPE].Str? && !(schema.iam <= m[TYPE].s)
    && NoneSet(m, schema.unsafe)
    && Same(Get(m, ALIASES, EMPTY), schema.stateAliases(m[URN].s, m[TYPE].s))
    && Get(m, INPUTS, NOTHING).Obj? && Get(m, OUTPUTS, NOTHING).Obj?
    && SecretInputsOk(schema, m)
    && Redact(Get(m, INPUTS, NOTHING)).Some? && Redact(Get(m, OUTPUTS, NOTHING)).Some?
    && (m[CUSTOM].b ==> Truthy(Get(m, ID, Null)))
  }

  type Inventory = map<Text, Members>

  /** Every item is the URN of another row. */
  predicate OtherRows(items: seq<Value>, inventory: Inventory, urn: Value) {
    forall i :: 0 <= i < |items| ==> items[i].Str? && items[i].s in inventory && items[i] != urn
  }

  predicate NoRepeats(items: seq<Value>) {
    forall i, j :: 0 <= i < j < |items| ==> items[i] != items[j]
  }

  /** A provider link `<urn>::<id>` leads to a provider row with that id. */
  predicate ProviderResolves(schema: Schema, row: Members, inventory: Inventory) {
    var provider := Get(row, PROVIDER, BLANK);
    Truthy(provider) ==>
      && provider.Str?
      && var at := LastSeparator(provider.s);
      && at.Some?
      && var urn := provider.s[..at.value];
      && urn in inventory
      && Get(inventory[urn], ID, Null) == Str(provider.s[at.value + 2..])
      && var kind := Get(inventory[urn], TYPE, Null);
      && kind.Str? && schema.providers <= kind.s
  }

  /** `_references`. */
  predicate ReferencesOk(schema: Schema, row: Members, inventory: Inventory) {
    && (Truthy(Get(row, PARENT, Null)) ==> row[PARENT].Str? && row[PARENT].s in inventory)
    && var dependencies := Get(row, DEPENDENCIES, EMPTY);
    && dependencies.Arr? && NoRepeats(dependencies.items)
    && OtherRows(dependencies.items, inventory, Get(row, URN, Null))
    && var properties := Get(row, PROPERTY_DEPENDENCIES, NOTHING);
       var inputs := Get(row, INPUTS, NOTHING);
    && properties.Obj? && inputs.Obj? && properties.members.Keys <= inputs.members.Keys
    && (forall k :: k in properties.members ==>
         properties.members[k].Arr? && OtherRows(properties.members[k].items, inventory, Get(row, URN, Null)))
    && ProviderResolves(schema, row, inventory)
  }

  function UrnOf(row: Value): Text {
    if row.Obj? && URN in row.members && row.members[URN].Str? then row.members[URN].s else []
  }

  predicate DistinctRows(rows: seq<Value>) {
    forall i, j :: 0 <= i < j < |rows| ==> UrnOf(rows[i]) != UrnOf(rows[j])
  }

  predicate RowsOk(schema: Schema, rows: seq<Value>) {
    && (forall i :: 0 <= i < |rows| ==> rows[i].Obj? && RowOk(schema, rows[i]))
    && DistinctRows(rows)
  }

  /** The rows by URN: no row is missing, and nothing else is there. */
  ghost predicate IsInventory(inventory: Inventory, rows: seq<Value>) {
    && (forall u :: u in inventory <==> exists i :: 0 <= i < |rows| && UrnOf(rows[i]) == u)
    && (forall i :: 0 <= i < |rows| ==>
         rows[i].Obj? && UrnOf(rows[i]) in inventory && inventory[UrnOf(rows[i])] == rows[i].members)
  }

  lemma {:induction false} InventoryUnique(a: Inventory, b: Inventory, rows: seq<Value>)
    requires IsInventory(a, rows) && IsInventory(b, rows)
    ensures a == b
  {
  }

  predicate InventoryOk(schema: Schema, inventory: Inventory) {
    && schema.root in inventory
    && forall u :: u in inventory ==> ReferencesOk(schema, inventory[u], inventory)
  }

  lemma {:induction false} NoRowsYet(schema: Schema)
    ensures RowsOk(schema, []) && IsInventory(map[], [])
  {
  }

  lemma {:induction false} RowsAppend(schema: Schema, rows: seq<Value>, n: nat, inventory: Inventory)
    requires n < |rows| && RowsOk(schema, rows[..n]) && IsInventory(inventory, rows[..n])
    ensures RowsOk(schema, rows[..n + 1]) <==> rows[n].Obj? && RowOk(schema, rows[n]) && UrnOf(rows[n]) !in inventory
  {
    hide RowOk, UrnOf;
    var next := rows[..n + 1];
    assert forall i :: 0 <= i < n ==> next[i] == rows[..n][i];
    if UrnOf(rows[n]) in inventory {
      var i :| 0 <= i < n && UrnOf(rows[..n][i]) == UrnOf(rows[n]);
      assert UrnOf(next[i]) == UrnOf(next[n]);
    } else {
      assert forall i :: 0 <= i < n ==> UrnOf(rows[..n][i]) in inventory;
    }
  }

  lemma {:induction false} RowsPrefix(schema: Schema, rows: seq<Value>, n: nat)
    requires n <= |rows| && RowsOk(schema, rows)
    ensures RowsOk(schema, rows[..n])
  {
  }

  lemma {:induction false} InventoryAdd(inventory: Inventory, rows: seq<Value>, row: Value)
    requires row.Obj? && IsInventory(inventory, rows) && UrnOf(row) !in inventory
    ensures IsInventory(inventory[UrnOf(row) := row.members], rows + [row])
  {
    hide UrnOf;
    var r := inventory[UrnOf(row) := row.members];
    var all := rows + [row];
    assert all[|rows|] == row && forall i :: 0 <= i < |rows| ==> all[i] == rows[i];
    forall u | u in r ensures exists i :: 0 <= i < |all| && UrnOf(all[i]) == u {
      if u == UrnOf(row) {
        assert UrnOf(all[|rows|]) == u;
      } else {
        var i :| 0 <= i < |rows| && UrnOf(rows[i]) == u;
        assert UrnOf(all[i]) == u;
      }
    }
  }

  /** `_inventory`, up to the reference checks. */
  method CollectRows(schema: Schema, rows: seq<Value>) returns (r: Option<Inventory>)
    ensures r.Some? <==> RowsOk(schema, rows)
    ensures r.Some? ==> IsInventory(r.value, rows)
  {
    hide RowsOk, RowOk, IsInventory, UrnOf;
    var result: Inventory := map[];
    NoRowsYet(schema);
    for n := 0 to |rows|
      invariant RowsOk(schema, rows[..n]) && IsInventory(result, rows[..n])
    {
      var row := rows[n];
      RowsAppend(schema, rows, n, result);
      if !row.Obj? || !RowOk(schema, row) || UrnOf(row) in result {
        if RowsOk(schema, rows) {
          RowsPrefix(schema, rows, n + 1);
        }
        return None;
      }
      InventoryAdd(result, rows[..n], row);
      result := result[UrnOf(row) := row.members];
      assert rows[..n + 1] == rows[..n] + [row];
    }
    assert rows[..|rows|] == rows;
    return Some(result);
  }

  method CheckReferences(schema: Schema, inventory: Inventory) returns (ok: bool)
    ensures ok <==> forall u :: u in inventory ==> ReferencesOk(schema, inventory[u], inventory)
  {
    hide ReferencesOk;
    var todo := inventory.Keys;
    while todo != {}
      invariant todo <= inventory.Keys
      invariant forall u :: u in inventory.Keys - todo ==> ReferencesOk(schema, inventory[u], inventory)
      decreases |todo|
    {
      var u :| u in todo;
      if !ReferencesOk(schema, inventory[u], inventory) {
        return false;
      }
      todo := todo - {u};
    }
    return true;
  }

  // ---------------------------------------------------------------- goals

  /** An absent or empty change of a map. */
  predicate NoDiff(goal: Members, field: Text) {
    var diff := Get(goal, field, NOTHING);
    && Fields(diff, {}, {ADDS, UPDATES, DELETES})
    && Same(Get(diff.members, ADDS, NOTHING), NOTHING)
    && Same(Get(diff.members, UPDATES, NOTHING), NOTHING)
    && Same(Get(diff.members, DELETES, EMPTY), EMPTY)
  }

  predicate SameField(goal: Members, row: Members, field: Text, default: Value) {
    Same(Get(goal, field, default), Get(row, field, default))
  }

  /** `_goal`, for the goal itself. */
  predicate GoalOk(schema: Schema, urn: Text, goal: Members, row: Members) {
    && {TYPE, NAME, CUSTOM, PROTECT} <= goal.Keys <= schema.goalFields
    && Get(goal, NAME, Null) == Str(LastPart(urn))
    && SameField(goal, row, TYPE, Null) && SameField(goal, row, CUSTOM, Null)
    && !Truthy(Get(goal, ID, Null)) && !Truthy(Get(goal, REPLACE_FIRST, Null))
    && Same(Get(goal, ALIASES, EMPTY), EMPTY)
    && (Get(row, TYPE, Null).Str? ==>
         Same(Get(goal, STRUCTURED_ALIASES, EMPTY), schema.structuredAliases(Get(row, TYPE, Null).s)))
    && (forall f :: f in schema.defaults ==> SameField(goal, row, f, schema.defaults[f]))
    && NoDiff(goal, INPUT_DIFF) && NoDiff(goal, OUTPUT_DIFF)
  }

  /** `_goal`: one resource plan that asks for nothing. */
  predicate PlanOk(schema: Schema, urn: Text, plan: Value, row: Members) {
    && Fields(plan, {GOAL, STEPS, STATE, SEED}, {GOAL, STEPS, STATE, SEED})
    && var m := plan.members;
    && Get(m, STEPS, Null) == Arr([Str(SAME_OP)])
    && (Get(m, STATE, Null) == Null || Get(m, STATE, Null).Obj?)
    && var seed := Get(m, SEED, Null);
    && seed.Str? && schema.seedLength(seed.s) == Some(32)
    && Get(m, GOAL, Null).Obj? && GoalOk(schema, urn, Get(m, GOAL, Null).members, row)
  }

  predicate SavedOk(schema: Schema, saved: Value, inventory: Inventory) {
    && Fields(saved, {MANIFEST, PLANS}, schema.savedFields)
    && var manifest, plans := Get(saved.members, MANIFEST, Null), Get(saved.members, PLANS, Null);
    && Fields(manifest, {VERSION, MAGIC}, schema.manifestFields)
    && Get(manifest.members, VERSION, Null) == Str(schema.version)
    && Get(manifest.members, MAGIC, Null) == Str(schema.magic)
    && plans.Obj? && plans.members.Keys == inventory.Keys
    && forall u :: u in inventory ==> u in plans.members && PlanOk(schema, u, plans.members[u], inventory[u])
  }

  // ---------------------------------------------------------------- preview

  /** The row as the preview must show it. */
  function Shown(schema: Schema, row: Members): Option<Value> {
    Redact(Obj(row - schema.observations))
  }

  predicate StateShown(schema: Schema, state: Value, expected: Value) {
    && Fields(state, {URN, TYPE, CUSTOM}, schema.stateFields)
    && Same(Obj(state.members - schema.observations), expected)
  }

  /** `_preview_step`, apart from the URN not having been seen. */
  predicate StepOk(schema: Schema, step: Value, inventory: Inventory) {
    && Fields(step, {URN, OP, OLD_STATE, NEW_STATE}, schema.stepFields)
    && var m := step.members;
    && Get(m, URN, Null).Str? && UrnOf(step) in inventory
    && Get(m, OP, Null) == Str(SAME_OP)
    && NoneSet(m, schema.explanations)
    && var row := inventory[UrnOf(step)];
    && PyEq(Get(m, PROVIDER, BLANK), Get(row, PROVIDER, BLANK))
    && var expected := Shown(schema, row);
    && expected.Some?
    && StateShown(schema, Get(m, OLD_STATE, Null), expected.value)
    && StateShown(schema, Get(m, NEW_STATE, Null), expected.value)
  }

  predicate StepsOk(schema: Schema, steps: seq<Value>, inventory: Inventory) {
    && (forall i :: 0 <= i < |steps| ==> StepOk(schema, steps[i], inventory))
    && DistinctRows(steps)
  }

  method CheckSteps(schema: Schema, steps: seq<Value>, inventory: Inventory) returns (ok: bool)
    ensures ok <==> StepsOk(schema, steps, inventory)
  {
    hide StepOk;
    var seen: set<Text> := {};
    for n := 0 to |steps|
      invariant forall i :: 0 <= i < n ==> StepOk(schema, steps[i], inventory)
      invariant DistinctRows(steps[..n])
      invariant forall u :: u in seen <==> exists i :: 0 <= i < n && UrnOf(steps[i]) == u
    {
      if !StepOk(schema, steps[n], inventory) || UrnOf(steps[n]) in seen {
        return false;
      }
      seen := seen + {UrnOf(steps[n])};
    }
    assert steps[..|steps|] == steps;
    return true;
  }

  /** `_preview` around the steps. */
  predicate FrameOk(schema: Schema, preview: Value) {
    && Fields(preview, {STEPS}, schema.previewFields)
    && Get(preview.members, STEPS, Null).Arr?
    && Get(preview.members, CORRUPT, Bool(false)) == Bool(false)
    && var summary := Get(preview.members, SUMMARY, NOTHING);
    && Fields(summary, {}, {SAME_OP})
    && var count := Get(summary.members, SAME_OP, Int(0));
    && count.Int? && count.n >= 0
  }

  function PreviewSteps(preview: Value): seq<Value> {
    if preview.Obj? && Get(preview.members, STEPS, Null).Arr? then Get(preview.members, STEPS, Null).items else []
  }

  // ---------------------------------------------------------------- the gate

  /** What the gate requires, once the rows are an inventory. */
  predicate Unchanged(schema: Schema, preview: Value, saved: Value, inventory: Inventory) {
    && InventoryOk(schema, inventory)
    && SavedOk(schema, saved, inventory)
    && FrameOk(schema, preview)
    && StepsOk(schema, PreviewSteps(preview), inventory)
  }

  ghost predicate Accepts(schema: Schema, preview: Value, saved: Value, resources: Value) {
    && resources.Arr? && resources.items != [] && RowsOk(schema, resources.items)
    && forall inventory :: IsInventory(inventory, resources.items) ==> Unchanged(schema, preview, saved, inventory)
  }

  /** `validate_no_change`. */
  method ValidateNoChange(schema: Schema, preview: Value, saved: Value, resources: Value)
    returns (ok: bool, ghost inventory: Inventory)
    ensures ok <==> Accepts(schema, preview, saved, resources)
    ensures ok ==> IsInventory(inventory, resources.items)
  {
    hide InventoryOk, SavedOk, FrameOk, StepsOk, RowsOk, IsInventory;
    inventory := map[];
    if !resources.Arr? || resources.items == [] {
      return false, inventory;
    }
    var rows := CollectRows(schema, resources.items);
    if rows.None? {
      return false, inventory;
    }
    inventory := rows.value;
    var found := ValidateInventory(schema, preview, saved, rows.value);
    forall other | IsInventory(other, resources.items) ensures other == rows.value {
      InventoryUnique(other, rows.value, resources.items);
    }
    return found, inventory;
  }

  method ValidateInventory(schema: Schema, preview: Value, saved: Value, inventory: Inventory) returns (ok: bool)
    ensures ok <==> Unchanged(schema, preview, saved, inventory)
  {
    hide SavedOk, FrameOk, StepsOk, ReferencesOk;
    var closed := CheckReferences(schema, inventory);
    if schema.root !in inventory || !closed || !SavedOk(schema, saved, inventory) || !FrameOk(schema, preview) {
      return false;
    }
    ok := CheckSteps(schema, PreviewSteps(preview), inventory);
  }
}
