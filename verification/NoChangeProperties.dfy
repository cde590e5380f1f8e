/**
 What acceptance by the no-change gate means: replaying the goals leaves every row as it was, every provider
 link leads to a provider, and the order in which anything is listed does not matter.
 */
module NoChangeProperties {
  import opened Options
  import opened Texts
  import opened Json
  import opened JsonText
  import opened CanonicalJson
  import opened RegistryRows
  import opened Redaction
  import opened NoChange

  // ---------------------------------------------------------------- replay

  function MembersOf(v: Value): Members {
    if v.Obj? then v.members else map[]
  }

  /** A map after a goal's change of it. */
  function Changed(diff: Value, was: Members): Members {
    var d := MembersOf(diff);
    var deletes := Get(d, DELETES, EMPTY);
    var gone :=
      if deletes.Arr? then set i | 0 <= i < |deletes.items| && deletes.items[i].Str? :: deletes.items[i].s else {};
    (was - gone) + MembersOf(Get(d, ADDS, NOTHING)) + MembersOf(Get(d, UPDATES, NOTHING))
  }

  function RowKeys(schema: Schema, row: Members): set<Text> {
    row.Keys + schema.defaults.Keys + {TYPE, CUSTOM, INPUTS, OUTPUTS}
  }

  function Default(schema: Schema, field: Text): Value {
    if field == INPUTS || field == OUTPUTS then NOTHING
    else if field in schema.defaults then schema.defaults[field]
    else Null
  }

  /** The row with every field a goal speaks of present. */
  function Filled(schema: Schema, row: Members): Members {
    map k | k in RowKeys(schema, row) :: Get(row, k, Default(schema, k))
  }

  /** The row once its goal has been carried out. */
  function After(schema: Schema, goal: Members, row: Members): Members {
    map k | k in RowKeys(schema, row) ::
      if k == INPUTS then Obj(Changed(Get(goal, INPUT_DIFF, NOTHING), MembersOf(Get(row, INPUTS, NOTHING))))
      else if k == OUTPUTS then Obj(Changed(Get(goal, OUTPUT_DIFF, NOTHING), MembersOf(Get(row, OUTPUTS, NOTHING))))
      else if k in schema.defaults || k == TYPE || k == CUSTOM then Get(goal, k, Default(schema, k))
      else row[k]
  }

  function GoalOf(saved: Value, urn: Text): Members {
    var plans := MembersOf(Get(MembersOf(saved), PLANS, Null));
    MembersOf(Get(MembersOf(Get(plans, urn, Null)), GOAL, Null))
  }

  /** The whole graph once the saved plan has been carried out. */
  function Replayed(schema: Schema, saved: Value, inventory: Inventory): Inventory {
    map u | u in inventory :: After(schema, GoalOf(saved, u), inventory[u])
  }

  /** Only the empty map prints as the empty map. */
  lemma {:induction false} PrintsNothing(scan: FloatScan, v: Value)
    requires FloatsOk(scan, v) && Same(v, NOTHING)
    ensures v == NOTHING
  {
    assert FloatsOk(scan, NOTHING);
    CanonicalRoundTrip(scan, NOTHING);
    LoadsPrint(scan, v);
    TreeOfScalar(v);
    match TreeOf(v)
    case Leaf(_) =>
    case Items(_) =>
    case Pairs(pairs) =>
      JoinPairsAt(pairs);
      NoNames(JoinPairs(pairs));
      NoKeys(v);
  }

  lemma {:induction false} NoNames(pairs: seq<Pair>)
    ensures Names(pairs) == {} <==> pairs == []
  {
    if pairs != [] {
      assert pairs[0].name in Names(pairs);
    }
  }

  lemma {:induction false} NoKeys(v: Value)
    requires v.Obj? && TreeOf(v) == Pairs([])
    ensures v == NOTHING
  {
  }

  lemma {:induction false} PrintsEmpty(scan: FloatScan, v: Value)
    requires FloatsOk(scan, v) && Same(v, EMPTY)
    ensures v == EMPTY
  {
    assert FloatsOk(scan, EMPTY);
    CanonicalRoundTrip(scan, EMPTY);
    LoadsPrint(scan, v);
    TreeOfScalar(v);
    match TreeOf(v)
    case Leaf(_) =>
    case Items(items) =>
      JoinItemsAt(items);
    case Pairs(_) =>
  }

  lemma {:induction false} NoDiffChanges(scan: FloatScan, goal: Members, field: Text, was: Members)
    requires FloatsOk(scan, Obj(goal)) && NoDiff(goal, field)
    ensures Changed(Get(goal, field, NOTHING), was) == was
  {
    hide Same, Print;
    var d := Get(goal, field, NOTHING).members;
    PrintsNothing(scan, Get(d, ADDS, NOTHING));
    PrintsNothing(scan, Get(d, UPDATES, NOTHING));
    PrintsEmpty(scan, Get(d, DELETES, EMPTY));
    assert (was - {}) + map[] + map[] == was;
  }

  /** An accepted goal leaves every field of its row as it was. */
  lemma {:induction false} GoalKeepsRow(
    schema: Schema, scan: FloatScan, urn: Text, goal: Members, row: Members, k: Text)
    requires GoalOk(schema, urn, goal, row) && FloatsOk(scan, Obj(goal))
    requires Get(row, INPUTS, NOTHING).Obj? && Get(row, OUTPUTS, NOTHING).Obj?
    requires k in RowKeys(schema, row)
    ensures Same(After(schema, goal, row)[k], Filled(schema, row)[k])
    ensures k != INPUTS && k != OUTPUTS && (k in schema.defaults || k == TYPE || k == CUSTOM) ==>
      After(schema, goal, row)[k] == Get(goal, k, Default(schema, k))
    ensures k == INPUTS || k == OUTPUTS || !(k in schema.defaults || k == TYPE || k == CUSTOM) ==>
      After(schema, goal, row)[k] == Filled(schema, row)[k]
  {
    hide Print, FloatsOk, NoDiff, Changed;
    if k == INPUTS {
      NoDiffChanges(scan, goal, INPUT_DIFF, MembersOf(Get(row, INPUTS, NOTHING)));
    } else if k == OUTPUTS {
      NoDiffChanges(scan, goal, OUTPUT_DIFF, MembersOf(Get(row, OUTPUTS, NOTHING)));
    }
  }

  /** Floats, in the rows and in the values of left-out fields, are ones the runtime can hold. */
  predicate RuntimeRows(schema: Schema, scan: FloatScan, inventory: Inventory) {
    FloatsOk(scan, Obj(schema.defaults)) && forall u :: u in inventory ==> FloatsOk(scan, Obj(inventory[u]))
  }

  /** The two values differ only in how surrogate pairs are held. */
  predicate Rejoined(a: Value, b: Value) {
    JoinTree(TreeOf(a)) == JoinTree(TreeOf(b))
  }

  /** The same fields with values that differ at most so. */
  predicate RejoinedFields(a: Members, b: Members) {
    a.Keys == b.Keys && forall k :: k in a ==> Rejoined(a[k], b[k])
  }

  predicate WholeGoal(schema: Schema, goal: Members, row: Members) {
    Whole(Obj(goal)) && Whole(Obj(row)) && Whole(Obj(schema.defaults))
  }

  lemma {:induction false} GoalKeepsFields(
    schema: Schema, scan: FloatScan, urn: Text, goal: Members, row: Members)
    requires GoalOk(schema, urn, goal, row)
    requires FloatsOk(scan, Obj(schema.defaults)) && FloatsOk(scan, Obj(goal)) && FloatsOk(scan, Obj(row))
    requires Get(row, INPUTS, NOTHING).Obj? && Get(row, OUTPUTS, NOTHING).Obj?
    ensures RejoinedFields(After(schema, goal, row), Filled(schema, row))
    ensures WholeGoal(schema, goal, row) ==> After(schema, goal, row) == Filled(schema, row)
  {
    hide GoalOk, Print, After, Filled, Rejoined, WholeGoal;
    KeysKept(schema, goal, row);
    forall k | k in RowKeys(schema, row)
      ensures Rejoined(After(schema, goal, row)[k], Filled(schema, row)[k])
      ensures WholeGoal(schema, goal, row) ==> After(schema, goal, row)[k] == Filled(schema, row)[k]
    {
      FieldKept(schema, scan, urn, goal, row, k);
    }
  }

  lemma {:induction false} KeysKept(schema: Schema, goal: Members, row: Members)
    ensures After(schema, goal, row).Keys == Filled(schema, row).Keys == RowKeys(schema, row)
  {
  }

  lemma {:induction false} FieldKept(
    schema: Schema, scan: FloatScan, urn: Text, goal: Members, row: Members, k: Text)
    requires GoalOk(schema, urn, goal, row)
    requires FloatsOk(scan, Obj(schema.defaults)) && FloatsOk(scan, Obj(goal)) && FloatsOk(scan, Obj(row))
    requires Get(row, INPUTS, NOTHING).Obj? && Get(row, OUTPUTS, NOTHING).Obj?
    requires k in RowKeys(schema, row)
    ensures Rejoined(After(schema, goal, row)[k], Filled(schema, row)[k])
    ensures WholeGoal(schema, goal, row) ==> After(schema, goal, row)[k] == Filled(schema, row)[k]
  {
    hide GoalOk, Print, JoinTree, TreeOf;
    GoalKeepsRow(schema, scan, urn, goal, row, k);
    if k != INPUTS && k != OUTPUTS && (k in schema.defaults || k == TYPE || k == CUSTOM) {
      PrintExact(scan, Get(goal, k, Default(schema, k)), Get(row, k, Default(schema, k)));
      if WholeGoal(schema, goal, row) {
        PrintInjective(scan, Get(goal, k, Default(schema, k)), Get(row, k, Default(schema, k)));
      }
    }
  }

  /** What acceptance says about one row and its goal. */
  lemma {:induction false} AcceptedGoal(
    schema: Schema, preview: Value, saved: Value, resources: Value, inventory: Inventory, u: Text)
    requires Accepts(schema, preview, saved, resources) && IsInventory(inventory, resources.items) && u in inventory
    ensures GoalOk(schema, u, GoalOf(saved, u), inventory[u])
    ensures RowOk(schema, Obj(inventory[u])) && ReferencesOk(schema, inventory[u], inventory)
  {
    hide GoalOk, RowOk, ReferencesOk, StepsOk, FrameOk;
    assert Unchanged(schema, preview, saved, inventory);
    var i :| 0 <= i < |resources.items| && UrnOf(resources.items[i]) == u;
    assert PlanOk(schema, u, Get(saved.members, PLANS, Null).members[u], inventory[u]);
  }

  /**
   Carrying out an accepted no-change plan gives back the rows it was judged against: the same URNs, in every
   row the same fields, and in every field the same value up to how surrogate pairs are held; exactly the same
   rows where no pair is split.
   */
  lemma {:induction false} NoChangeReplaysToPrior(
    schema: Schema, scan: FloatScan, preview: Value, saved: Value, resources: Value, inventory: Inventory)
    requires Accepts(schema, preview, saved, resources) && IsInventory(inventory, resources.items)
    requires RuntimeRows(schema, scan, inventory)
    requires forall u :: u in inventory ==> FloatsOk(scan, Obj(GoalOf(saved, u)))
    ensures Replayed(schema, saved, inventory).Keys == inventory.Keys
    ensures forall u :: u in inventory ==>
      RejoinedFields(Replayed(schema, saved, inventory)[u], Filled(schema, inventory[u]))
    ensures forall u :: u in inventory && WholeGoal(schema, GoalOf(saved, u), inventory[u]) ==>
      Replayed(schema, saved, inventory)[u] == Filled(schema, inventory[u])
  {
    hide GoalOf, After, Filled, Accepts, IsInventory, GoalOk, ReferencesOk, RejoinedFields, WholeGoal;
    forall u | u in inventory
      ensures RejoinedFields(After(schema, GoalOf(saved, u), inventory[u]), Filled(schema, inventory[u]))
      ensures WholeGoal(schema, GoalOf(saved, u), inventory[u]) ==>
        After(schema, GoalOf(saved, u), inventory[u]) == Filled(schema, inventory[u])
    {
      AcceptedGoal(schema, preview, saved, resources, inventory, u);
      GoalKeepsFields(schema, scan, u, GoalOf(saved, u), inventory[u]);
    }
  }

  /** Every provider link of an accepted graph leads to a provider row with the linked id. */
  lemma {:induction false} ProvidersResolve(
    schema: Schema, preview: Value, saved: Value, resources: Value, inventory: Inventory, u: Text)
    returns (provider: Text, id: Text)
    requires Accepts(schema, preview, saved, resources) && IsInventory(inventory, resources.items)
    requires u in inventory && Truthy(Get(inventory[u], PROVIDER, Null))
    ensures Get(inventory[u], PROVIDER, Null) == Str(provider + T("::") + id)
    ensures LastSeparator(id).None?
    ensures provider in inventory && Get(inventory[provider], ID, Null) == Str(id)
    ensures Get(inventory[provider], TYPE, Null).Str? && schema.providers <= Get(inventory[provider], TYPE, Null).s
  {
    hide GoalOk, RowOk, Accepts, IsInventory, LastSeparator;
    AcceptedGoal(schema, preview, saved, resources, inventory, u);
    var link := Get(inventory[u], PROVIDER, Null).s;
    var at := LastSeparator(link).value;
    provider, id := link[..at], link[at + 2..];
    SeparatorSplits(link);
    SeparatorAt(link);
  }

  lemma {:induction false} SeparatorSplits(t: Text)
    requires LastSeparator(t).Some?
    ensures var at := LastSeparator(t).value; t == t[..at] + T("::") + t[at + 2..]
  {
    SeparatorAt(t);
    var at := LastSeparator(t).value;
    assert t[at..at + 2] == T("::");
  }

  lemma {:induction false} SeparatorAt(t: Text)
    requires LastSeparator(t).Some?
    ensures t[LastSeparator(t).value] == 0x3A && t[LastSeparator(t).value + 1] == 0x3A
    ensures LastSeparator(t[LastSeparator(t).value + 2..]) .None?
    decreases |t|
  {
    var at := LastSeparator(t).value;
    if at < |t| - 2 {
      SeparatorAt(t[..|t| - 1]);
      var tail := t[at + 2..];
      assert tail[..|tail| - 1] == t[..|t| - 1][at + 2..];
    }
  }

  // ---------------------------------------------------------------- order

  /** The same items, in whatever order. */
  ghost predicate Permutation(a: seq<Value>, b: seq<Value>) {
    multiset(a) == multiset(b)
  }

  lemma {:induction false} TwoPlaces(s: seq<Value>, x: Value) returns (i: nat, j: nat)
    requires multiset(s)[x] >= 2
    ensures i < j < |s| && s[i] == s[j] == x
  {
    var front, last := s[..|s| - 1], s[|s| - 1];
    assert s == front + [last];
    if last != x {
      i, j := TwoPlaces(front, x);
    } else {
      assert x in multiset(front);
      i :| 0 <= i < |front| && front[i] == x;
      j := |s| - 1;
    }
  }

  lemma {:induction false} PlacesCount(s: seq<Value>, i: nat, j: nat)
    requires i < j < |s| && s[i] == s[j]
    ensures multiset(s)[s[i]] >= 2
  {
    assert s == s[..j] + [s[j]] + s[j + 1..];
    assert s[..j][i] == s[i];
    assert s[i] in multiset(s[..j]);
  }

  lemma {:induction false} PermutedPlaces(a: seq<Value>, b: seq<Value>, i: nat) returns (k: nat)
    requires Permutation(a, b) && i < |b|
    ensures k < |a| && a[k] == b[i]
  {
    assert b[i] in multiset(b);
    assert b[i] in multiset(a);
    k :| 0 <= k < |a| && a[k] == b[i];
  }

  lemma {:induction false} PermutedDistinct(a: seq<Value>, b: seq<Value>)
    requires Permutation(a, b) && DistinctRows(a)
    ensures DistinctRows(b)
  {
    hide UrnOf;
    forall i, j | 0 <= i < j < |b| ensures UrnOf(b[i]) != UrnOf(b[j]) {
      if b[i] == b[j] {
        PlacesCount(b, i, j);
        var k, l := TwoPlaces(a, b[i]);
      } else {
        var k := PermutedPlaces(a, b, i);
        var l := PermutedPlaces(a, b, j);
        assert UrnOf(a[k]) != UrnOf(a[l]);
      }
    }
  }

  lemma {:induction false} PermutedRows(schema: Schema, a: seq<Value>, b: seq<Value>)
    requires Permutation(a, b) && RowsOk(schema, a)
    ensures RowsOk(schema, b)
  {
    hide RowOk, UrnOf;
    PermutedDistinct(a, b);
    forall i | 0 <= i < |b| ensures b[i].Obj? && RowOk(schema, b[i]) {
      var k := PermutedPlaces(a, b, i);
    }
  }

  lemma {:induction false} PermutedInventory(inventory: Inventory, a: seq<Value>, b: seq<Value>)
    requires Permutation(a, b) && IsInventory(inventory, a)
    ensures IsInventory(inventory, b)
  {
    hide UrnOf;
    forall i | 0 <= i < |b|
      ensures b[i].Obj? && UrnOf(b[i]) in inventory && inventory[UrnOf(b[i])] == b[i].members
    {
      var k := PermutedPlaces(a, b, i);
    }
    forall u | u in inventory ensures exists i :: 0 <= i < |b| && UrnOf(b[i]) == u {
      var k :| 0 <= k < |a| && UrnOf(a[k]) == u;
      var i := PermutedPlaces(b, a, k);
    }
  }

  lemma {:induction false} PermutedSteps(schema: Schema, a: seq<Value>, b: seq<Value>, inventory: Inventory)
    requires Permutation(a, b) && StepsOk(schema, a, inventory)
    ensures StepsOk(schema, b, inventory)
  {
    hide StepOk, UrnOf;
    PermutedDistinct(a, b);
    forall i | 0 <= i < |b| ensures StepOk(schema, b[i], inventory) {
      var k := PermutedPlaces(a, b, i);
    }
  }

  /** A preview that differs from another only in the order of its steps. */
  ghost predicate Reordered(a: Value, b: Value) {
    && a.Obj? && b.Obj? && a.members.Keys == b.members.Keys
    && (forall k :: k in a.members && k != STEPS ==> a.members[k] == b.members[k])
    && Get(a.members, STEPS, Null).Arr? && Get(b.members, STEPS, Null).Arr?
    && Permutation(PreviewSteps(a), PreviewSteps(b))
  }

  lemma {:induction false} FieldNamesDiffer()
    ensures STEPS != CORRUPT && STEPS != SUMMARY
  {
  }

  lemma {:induction false} ReorderedFrame(schema: Schema, a: Value, b: Value)
    requires Reordered(a, b) && FrameOk(schema, a)
    ensures FrameOk(schema, b)
  {
  }

  lemma {:induction false} SomeInventory(schema: Schema, rows: seq<Value>) returns (inventory: Inventory)
    requires RowsOk(schema, rows)
    ensures IsInventory(inventory, rows)
  {
    hide RowOk, UrnOf, IsInventory;
    if rows == [] {
      NoRowsYet(schema);
      inventory := map[];
    } else {
      var n := |rows| - 1;
      RowsPrefix(schema, rows, n);
      var before := SomeInventory(schema, rows[..n]);
      assert rows[..n + 1] == rows == rows[..n] + [rows[n]];
      RowsAppend(schema, rows, n, before);
      InventoryAdd(before, rows[..n], rows[n]);
      inventory := before[UrnOf(rows[n]) := rows[n].members];
    }
  }

  lemma {:induction false} ReorderedAccepted(
    schema: Schema, preview: Value, preview': Value, saved: Value, rows: seq<Value>, rows': seq<Value>)
    requires Reordered(preview, preview') && Permutation(rows, rows')
    requires Accepts(schema, preview, saved, Arr(rows))
    ensures Accepts(schema, preview', saved, Arr(rows'))
  {
    hide RowsOk, FrameOk, StepsOk, SavedOk, InventoryOk, PreviewSteps, IsInventory;
    PermutedRows(schema, rows, rows');
    var found := SomeInventory(schema, rows);
    assert Unchanged(schema, preview, saved, found);
    ReorderedFrame(schema, preview, preview');
    assert rows' != [];
    forall inventory | IsInventory(inventory, rows') ensures Unchanged(schema, preview', saved, inventory) {
      PermutedInventory(inventory, rows', rows);
      PermutedSteps(schema, PreviewSteps(preview), PreviewSteps(preview'), inventory);
    }
  }

  /**
   The verdict does not depend on the order of the resource list or of the preview steps; that of the
   resource plans, a JSON object, cannot be observed at all.
   */
  lemma {:induction false} OrderIndependent(
    schema: Schema, preview: Value, preview': Value, saved: Value, rows: seq<Value>, rows': seq<Value>)
    requires Reordered(preview, preview') && Permutation(rows, rows')
    ensures Accepts(schema, preview, saved, Arr(rows)) <==> Accepts(schema, preview', saved, Arr(rows'))
  {
    hide Accepts, PreviewSteps;
    if Accepts(schema, preview, saved, Arr(rows)) {
      ReorderedAccepted(schema, preview, preview', saved, rows, rows');
    }
    if Accepts(schema, preview', saved, Arr(rows')) {
      ReorderedBack(preview, preview');
      ReorderedAccepted(schema, preview', preview, saved, rows', rows);
    }
  }

  lemma {:induction false} ReorderedBack(a: Value, b: Value)
    requires Reordered(a, b)
    ensures Reordered(b, a)
  {
  }

  // ---------------------------------------------------------------- an unchanged plan is accepted

  /** The goal that asks for a row as it is. */
  function UnchangedGoal(schema: Schema, urn: Text, row: Members): Members {
    map k | k in schema.defaults.Keys + {TYPE, NAME, CUSTOM, STRUCTURED_ALIASES} ::
      if k in schema.defaults then Get(row, k, schema.defaults[k])
      else if k == NAME then Str(LastPart(urn))
      else if k == STRUCTURED_ALIASES && Get(row, TYPE, Null).Str? then schema.structuredAliases(Get(row, TYPE, Null).s)
      else Get(row, k, Null)
  }

  /** How the gate's field lists fit together. */
  predicate SchemaOk(schema: Schema) {
    && schema.defaults.Keys + {TYPE, NAME, CUSTOM, STRUCTURED_ALIASES} <= schema.goalFields
    && PROTECT in schema.defaults
    && STEPS in schema.previewFields
    && {MANIFEST, PLANS} <= schema.savedFields && {VERSION, MAGIC} <= schema.manifestFields
    && {TYPE, NAME, CUSTOM, STRUCTURED_ALIASES, ID, REPLACE_FIRST, ALIASES, INPUT_DIFF, OUTPUT_DIFF}
       !! schema.defaults.Keys
  }

  lemma {:induction false} GoalNamesDiffer()
    ensures {TYPE, NAME, CUSTOM, STRUCTURED_ALIASES} !! {ID, REPLACE_FIRST, ALIASES, INPUT_DIFF, OUTPUT_DIFF}
    ensures NAME != TYPE && NAME != CUSTOM && NAME != STRUCTURED_ALIASES && TYPE != STRUCTURED_ALIASES
    ensures CUSTOM != STRUCTURED_ALIASES
  {
    assert |TYPE| == 4 && |NAME| == 4 && |CUSTOM| == 6 && |STRUCTURED_ALIASES| == 17;
    assert |ID| == 2 && |REPLACE_FIRST| == 19 && |ALIASES| == 7 && |INPUT_DIFF| == 9 && |OUTPUT_DIFF| == 10;
    assert TYPE[0] != NAME[0];
  }

  lemma {:induction false} UnchangedGoalOk(schema: Schema, urn: Text, row: Members)
    requires SchemaOk(schema)
    ensures GoalOk(schema, urn, UnchangedGoal(schema, urn, row), row)
  {
    hide Print, LastPart;
    GoalNamesDiffer();
    var goal := UnchangedGoal(schema, urn, row);
    assert INPUT_DIFF !in goal && OUTPUT_DIFF !in goal && ID !in goal && REPLACE_FIRST !in goal && ALIASES !in goal;
  }

  function UnchangedPlan(schema: Schema, seed: Text, urn: Text, row: Members): Value {
    Obj(map[
      GOAL := Obj(UnchangedGoal(schema, urn, row)), STEPS := Arr([Str(SAME_OP)]), STATE := Null, SEED := Str(seed)])
  }

  function UnchangedSaved(schema: Schema, seed: Text, inventory: Inventory): Value {
    Obj(map[
      MANIFEST := Obj(map[VERSION := Str(schema.version), MAGIC := Str(schema.magic)]),
      PLANS := Obj(map u | u in inventory :: UnchangedPlan(schema, seed, u, inventory[u]))])
  }

  lemma {:induction false} PlanNamesDiffer()
    ensures GOAL != STEPS && GOAL != STATE && GOAL != SEED && STEPS != STATE && STEPS != SEED && STATE != SEED
  {
    assert |GOAL| == 4 && |STEPS| == 5 && |STATE| == 5 && |SEED| == 4;
    assert GOAL[0] != SEED[0] && STEPS[2] != STATE[2];
  }

  lemma {:induction false} UnchangedPlanOk(schema: Schema, seed: Text, urn: Text, row: Members)
    requires SchemaOk(schema) && schema.seedLength(seed) == Some(32)
    ensures PlanOk(schema, urn, UnchangedPlan(schema, seed, urn, row), row)
  {
    hide GoalOk, UnchangedGoal, SchemaOk, T;
    UnchangedGoalOk(schema, urn, row);
    PlanNamesDiffer();
    assert UnchangedPlan(schema, seed, urn, row).members.Keys == {GOAL, STEPS, STATE, SEED};
  }

  lemma {:induction false} UnchangedSavedOk(schema: Schema, seed: Text, inventory: Inventory)
    requires SchemaOk(schema) && schema.seedLength(seed) == Some(32)
    ensures SavedOk(schema, UnchangedSaved(schema, seed, inventory), inventory)
  {
    hide PlanOk, UnchangedPlan;
    forall u | u in inventory ensures PlanOk(schema, u, UnchangedPlan(schema, seed, u, inventory[u]), inventory[u]) {
      UnchangedPlanOk(schema, seed, u, inventory[u]);
    }
    assert |MANIFEST| == 8 && |PLANS| == 13 && |VERSION| == 7 && |MAGIC| == 5;
  }

  /** For every sound graph of rows, the plan that asks for nothing is accepted, even with an empty preview. */
  lemma {:induction false} UnchangedAccepted(schema: Schema, seed: Text, rows: seq<Value>, inventory: Inventory)
    requires SchemaOk(schema) && schema.seedLength(seed) == Some(32)
    requires rows != [] && RowsOk(schema, rows) && IsInventory(inventory, rows) && InventoryOk(schema, inventory)
    ensures Accepts(schema, Obj(map[STEPS := EMPTY]), UnchangedSaved(schema, seed, inventory), Arr(rows))
  {
    hide RowsOk, SavedOk, InventoryOk, IsInventory, UnchangedSaved;
    var preview := Obj(map[STEPS := EMPTY]);
    FieldNamesDiffer();
    UnchangedSavedOk(schema, seed, inventory);
    forall other | IsInventory(other, rows)
      ensures Unchanged(schema, preview, UnchangedSaved(schema, seed, inventory), other)
    {
      InventoryUnique(other, inventory, rows);
    }
  }
}
