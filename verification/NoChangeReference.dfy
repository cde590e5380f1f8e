/**
 The no-change gate once more, as one statement about the documents: which lists of rows, saved plans and previews
 scripts/poc_workload_reconciliation.py lets pass, in the names those documents use and without its passes.
 */
module NoChangeReference {
  import opened Options
  import opened Texts
  import opened Json
  import opened CanonicalJson
  import opened Redaction
  import opened NoChange
  import opened NoChangeProperties

  /** `m.get(name, default)`. */
  function Field(m: Members, name: string, default: Value): Value {
    if T(name) in m then m[T(name)] else default
  }

  predicate SameText(a: Value, b: Value) {
    Print(a) == Print(b)
  }

  /** A wrapped secret. */
  predicate Wrapped(v: Value) {
    v.Obj? && Field(v.members, "4dabf18193072939515e22adb298388d", Null) == Str(T("1b47061264138c4ac30d75fd1eb44270"))
  }

  // ---------------------------------------------------------------- rows

  predicate SoundRow(schema: Schema, m: Members) {
    var urn, kind := Field(m, "urn", Null), Field(m, "type", Null);
    var custom, inputs := Field(m, "custom", Null), Field(m, "inputs", Obj(map[]));
    var outputs := Field(m, "outputs", Obj(map[]));
    && {T("urn"), T("type"), T("custom")} <= m.Keys <= schema.stateFields
    && urn.Str? && schema.prefix <= urn.s && kind.Str? && !(schema.iam <= kind.s) && custom.Bool?
    && (forall k :: k in schema.unsafe ==> !Truthy(if k in m then m[k] else Null))
    && SameText(Field(m, "aliases", Arr([])), schema.stateAliases(urn.s, kind.s))
    && inputs.Obj? && outputs.Obj? && Redact(inputs).Some? && Redact(outputs).Some?
    && (kind.s == schema.secretVersion ==>
         forall k :: k in schema.secretInputs && k in inputs.members ==> Wrapped(inputs.members[k]))
    && (custom.b ==> Truthy(Field(m, "id", Null)))
  }

  function Urns(rows: seq<Value>): set<Text> {
    set i | 0 <= i < |rows| && rows[i].Obj? && Field(rows[i].members, "urn", Null).Str?
      :: Field(rows[i].members, "urn", Null).s
  }

  /** The list names only URNs of other rows. */
  predicate NamesOthers(items: Value, urns: set<Text>, own: Value) {
    items.Arr? && forall i :: 0 <= i < |items.items| ==>
      items.items[i].Str? && items.items[i].s in urns && items.items[i] != own
  }

  /** `link` is `<urn>::<id>`, split at the last separator, of some row that is a provider with that id. */
  ghost predicate LinksProvider(schema: Schema, rows: seq<Value>, link: Value) {
    exists i, id :: 0 <= i < |rows| && IsProvider(schema, rows[i], link, id)
  }

  predicate IsProvider(schema: Schema, row: Value, link: Value, id: Text) {
    && row.Obj? && Field(row.members, "urn", Null).Str?
    && link == Str(Field(row.members, "urn", Null).s + T("::") + id)
    && (forall i :: 0 <= i < |id| - 1 ==> !(id[i] == 0x3A && id[i + 1] == 0x3A))
    && (id != [] ==> id[0] != 0x3A)
    && Field(row.members, "id", Null) == Str(id)
    && Field(row.members, "type", Null).Str? && schema.providers <= Field(row.members, "type", Null).s
  }

  predicate HasInput(m: Members, k: Text) {
    var inputs := Field(m, "inputs", Obj(map[]));
    inputs.Obj? && k in inputs.members
  }

  ghost predicate SoundReferences(schema: Schema, m: Members, rows: seq<Value>) {
    var urns, own := Urns(rows), Field(m, "urn", Null);
    var parent, dependencies := Field(m, "parent", Null), Field(m, "dependencies", Arr([]));
    var properties, provider := Field(m, "propertyDependencies", Obj(map[])), Field(m, "provider", Str([]));
    && (Truthy(parent) ==> parent.Str? && parent.s in urns)
    && NamesOthers(dependencies, urns, own)
    && (forall i, j :: 0 <= i < j < |dependencies.items| ==> dependencies.items[i] != dependencies.items[j])
    && properties.Obj?
    && (forall k :: k in properties.members ==>
         HasInput(m, k) && NamesOthers(properties.members[k], urns, own))
    && (Truthy(provider) ==> LinksProvider(schema, rows, provider))
  }

  // ---------------------------------------------------------------- plans

  predicate NoSeparator(t: Text) {
    forall i :: 0 <= i < |t| - 1 ==> !(t[i] == 0x3A && t[i + 1] == 0x3A)
  }

  /** `name` is what follows the last separator of `urn`, or the whole of one without separators. */
  ghost predicate IsNameOf(name: Text, urn: Text) {
    || (NoSeparator(urn) && name == urn)
    || (NoSeparator(name) && (name != [] ==> name[0] != 0x3A) && exists head :: urn == head + T("::") + name)
  }

  predicate Empty(diff: Value) {
    && diff.Obj? && diff.members.Keys <= {T("adds"), T("updates"), T("deletes")}
    && SameText(Field(diff.members, "adds", Obj(map[])), Obj(map[]))
    && SameText(Field(diff.members, "updates", Obj(map[])), Obj(map[]))
    && SameText(Field(diff.members, "deletes", Arr([])), Arr([]))
  }

  ghost predicate AsksNothing(schema: Schema, urn: Text, plan: Value, row: Members) {
    && plan.Obj? && plan.members.Keys == {T("goal"), T("steps"), T("state"), T("seed")}
    && var goal, seed := Field(plan.members, "goal", Null), Field(plan.members, "seed", Null);
       var state := Field(plan.members, "state", Null);
    && Field(plan.members, "steps", Null) == Arr([Str(T("same"))])
    && (state == Null || state.Obj?)
    && seed.Str? && schema.seedLength(seed.s) == Some(32)
    && goal.Obj? && GoalAsksNothing(schema, urn, goal.members, row)
  }

  ghost predicate GoalAsksNothing(schema: Schema, urn: Text, goal: Members, row: Members) {
    && {T("type"), T("name"), T("custom"), T("protect")} <= goal.Keys <= schema.goalFields
    && Field(goal, "name", Null).Str? && IsNameOf(Field(goal, "name", Null).s, urn)
    && SameText(Field(goal, "type", Null), Field(row, "type", Null))
    && SameText(Field(goal, "custom", Null), Field(row, "custom", Null))
    && !Truthy(Field(goal, "id", Null)) && !Truthy(Field(goal, "deleteBeforeReplace", Null))
    && SameText(Field(goal, "aliases", Arr([])), Arr([]))
    && (Field(row, "type", Null).Str? ==>
         SameText(Field(goal, "structuredAliases", Arr([])), schema.structuredAliases(Field(row, "type", Null).s)))
    && (forall f :: f in schema.defaults ==> SameText(
         if f in goal then goal[f] else schema.defaults[f], if f in row then row[f] else schema.defaults[f]))
    && Empty(Field(goal, "inputDiff", Obj(map[]))) && Empty(Field(goal, "outputDiff", Obj(map[])))
  }

  ghost predicate SavedAsksNothing(schema: Schema, saved: Value, rows: seq<Value>) {
    && saved.Obj? && {T("manifest"), T("resourcePlans")} <= saved.members.Keys <= schema.savedFields
    && var manifest, plans := Field(saved.members, "manifest", Null), Field(saved.members, "resourcePlans", Null);
    && manifest.Obj? && {T("version"), T("magic")} <= manifest.members.Keys <= schema.manifestFields
    && Field(manifest.members, "version", Null) == Str(schema.version)
    && Field(manifest.members, "magic", Null) == Str(schema.magic)
    && plans.Obj? && plans.members.Keys == Urns(rows)
    && forall i :: 0 <= i < |rows| ==> PlanFor(schema, plans.members, rows[i])
  }

  ghost predicate PlanFor(schema: Schema, plans: Members, row: Value) {
    && row.Obj? && Field(row.members, "urn", Null).Str?
    && var urn := Field(row.members, "urn", Null).s;
       urn in plans && AsksNothing(schema, urn, plans[urn], row.members)
  }

  // ---------------------------------------------------------------- previews

  /** The state displayed is the row, secrets hidden, apart from what is only observed. */
  predicate Displays(schema: Schema, state: Value, row: Members) {
    && state.Obj? && {T("urn"), T("type"), T("custom")} <= state.members.Keys <= schema.stateFields
    && Redact(Obj(row - schema.observations)).Some?
    && SameText(Obj(state.members - schema.observations), Redact(Obj(row - schema.observations)).value)
  }

  /** A step that shows the row as staying the same, before and after. */
  predicate ShowsSame(schema: Schema, step: Value, row: Value) {
    && step.Obj? && row.Obj?
    && {T("urn"), T("op"), T("oldState"), T("newState")} <= step.members.Keys <= schema.stepFields
    && Field(step.members, "urn", Null).Str?
    && Field(step.members, "urn", Null) == Field(row.members, "urn", Null)
    && Field(step.members, "op", Null) == Str(T("same"))
    && (forall k :: k in schema.explanations ==> !Truthy(if k in step.members then step.members[k] else Null))
    && PyEq(Field(step.members, "provider", Str([])), Field(row.members, "provider", Str([])))
    && Displays(schema, Field(step.members, "oldState", Null), row.members)
    && Displays(schema, Field(step.members, "newState", Null), row.members)
  }

  predicate ShowsSome(schema: Schema, step: Value, rows: seq<Value>) {
    exists i :: 0 <= i < |rows| && ShowsSame(schema, step, rows[i])
  }

  predicate PreviewShowsSame(schema: Schema, preview: Value, rows: seq<Value>) {
    && preview.Obj? && T("steps") in preview.members && preview.members.Keys <= schema.previewFields
    && var steps, summary := Field(preview.members, "steps", Null), Field(preview.members, "changeSummary", Obj(map[]));
    && Field(preview.members, "maybeCorrupt", Bool(false)) == Bool(false)
    && summary.Obj? && summary.members.Keys <= {T("same")}
    && Field(summary.members, "same", Int(0)).Int? && Field(summary.members, "same", Int(0)).n >= 0
    && steps.Arr? && (forall i :: 0 <= i < |steps.items| ==> ShowsSome(schema, steps.items[i], rows))
    && forall i, j :: 0 <= i < j < |steps.items| ==> UrnField(steps.items[i]) != UrnField(steps.items[j])
  }

  function UrnField(v: Value): Value {
    if v.Obj? then Field(v.members, "urn", Null) else Null
  }

  // ---------------------------------------------------------------- the gate

  ghost predicate RowsSound(schema: Schema, rows: seq<Value>) {
    && (forall i :: 0 <= i < |rows| ==> rows[i].Obj? && SoundRow(schema, rows[i].members))
    && (forall i, j :: 0 <= i < j < |rows| ==> UrnField(rows[i]) != UrnField(rows[j]))
  }

  /** Nothing changes: sound rows of distinct resources that refer to one another, plans and steps that leave them. */
  ghost predicate ChangesNothing(schema: Schema, preview: Value, saved: Value, resources: Value) {
    && resources.Arr? && resources.items != []
    && var rows := resources.items;
    && RowsSound(schema, rows) && schema.root in Urns(rows)
    && (forall i :: 0 <= i < |rows| ==> SoundReferences(schema, rows[i].members, rows))
    && SavedAsksNothing(schema, saved, rows)
    && PreviewShowsSame(schema, preview, rows)
  }

  lemma {:induction false} RowExactly(schema: Schema, m: Members)
    ensures RowOk(schema, Obj(m)) <==> SoundRow(schema, m)
  {
    hide Print, Redact, Truthy;
  }

  lemma {:induction false} RowsExactly(schema: Schema, rows: seq<Value>)
    ensures RowsOk(schema, rows) <==> RowsSound(schema, rows)
  {
    hide RowOk, SoundRow;
    forall i | 0 <= i < |rows| && rows[i].Obj? ensures RowOk(schema, rows[i]) <==> SoundRow(schema, rows[i].members) {
      RowExactly(schema, rows[i].members);
    }
    assert forall i :: 0 <= i < |rows| && rows[i].Obj? && SoundRow(schema, rows[i].members) ==>
      UrnField(rows[i]) == Str(UrnOf(rows[i])) by {
      forall i | 0 <= i < |rows| && rows[i].Obj? && SoundRow(schema, rows[i].members)
        ensures UrnField(rows[i]) == Str(UrnOf(rows[i]))
      {
        SoundUrn(schema, rows[i]);
      }
    }
  }

  lemma {:induction false} SoundUrn(schema: Schema, row: Value)
    requires row.Obj? && SoundRow(schema, row.members)
    ensures UrnField(row) == Str(UrnOf(row))
  {
    hide Print, Redact, Truthy;
  }

  lemma {:induction false} NoSeparatorExactly(t: Text)
    ensures LastSeparator(t).None? <==> NoSeparator(t)
    decreases |t|
  {
    if |t| >= 2 {
      var front := t[..|t| - 1];
      NoSeparatorExactly(front);
      assert forall i :: 0 <= i < |front| ==> front[i] == t[i];
    }
  }

  /** The last separator is where a rest without one, not starting with a colon, is preceded by one. */
  lemma {:induction false} SeparatorFound(head: Text, rest: Text)
    requires NoSeparator(rest) && (rest != [] ==> rest[0] != 0x3A)
    ensures LastSeparator(head + T("::") + rest) == Some(|head|)
    decreases |rest|
  {
    var t := head + T("::") + rest;
    if rest != [] {
      var front := rest[..|rest| - 1];
      SeparatorFound(head, front);
      assert t[..|t| - 1] == head + T("::") + front;
      assert t[|t| - 1] == rest[|rest| - 1];
      if |rest| > 1 {
        assert t[|t| - 2] == rest[|rest| - 2];
      }
    }
  }

  lemma {:induction false} SeparatorRest(t: Text)
    requires LastSeparator(t).Some?
    ensures var at := LastSeparator(t).value;
      && t == t[..at] + T("::") + t[at + 2..]
      && NoSeparator(t[at + 2..]) && (t[at + 2..] != [] ==> t[at + 2] != 0x3A)
    decreases |t|
  {
    var at := LastSeparator(t).value;
    SeparatorSplits(t);
    SeparatorAt(t);
    NoSeparatorExactly(t[at + 2..]);
    SeparatorStart(t);
  }

  lemma {:induction false} SeparatorStart(t: Text)
    requires LastSeparator(t).Some?
    ensures var at := LastSeparator(t).value; at + 2 < |t| ==> t[at + 2] != 0x3A
    decreases |t|
  {
    var at := LastSeparator(t).value;
    if at < |t| - 2 {
      var front := t[..|t| - 1];
      SeparatorAt(front);
      SeparatorStart(front);
    }
  }

  /** The name a URN ends in is its last part. */
  lemma {:induction false} NameExactly(name: Text, urn: Text)
    ensures IsNameOf(name, urn) <==> name == LastPart(urn)
  {
    NoSeparatorExactly(urn);
    if LastSeparator(urn).Some? {
      SeparatorRest(urn);
      if IsNameOf(name, urn) {
        var head :| urn == head + T("::") + name;
        SeparatorFound(head, name);
        assert urn[|head| + 2..] == name;
      }
    } else if IsNameOf(name, urn) && name != urn {
      var head :| urn == head + T("::") + name;
      SeparatorFound(head, name);
    }
  }

  /** What an inventory of sound rows holds. */
  lemma {:induction false} InventoryHolds(schema: Schema, rows: seq<Value>, inventory: Inventory)
    requires RowsSound(schema, rows) && IsInventory(inventory, rows)
    ensures inventory.Keys == Urns(rows)
    ensures forall i :: 0 <= i < |rows| ==> UrnField(rows[i]) == Str(UrnOf(rows[i]))
    ensures forall i :: 0 <= i < |rows| ==>
      UrnOf(rows[i]) in inventory && inventory[UrnOf(rows[i])] == rows[i].members
  {
    hide SoundRow, UrnOf, UrnField;
    forall i | 0 <= i < |rows| ensures UrnField(rows[i]) == Str(UrnOf(rows[i])) {
      SoundUrn(schema, rows[i]);
    }
    forall u ensures u in inventory <==> u in Urns(rows) {
      UrnListed(schema, rows, u);
    }
  }

  lemma {:induction false} UrnListed(schema: Schema, rows: seq<Value>, u: Text)
    requires forall i :: 0 <= i < |rows| ==> rows[i].Obj? && UrnField(rows[i]) == Str(UrnOf(rows[i]))
    ensures u in Urns(rows) <==> exists i :: 0 <= i < |rows| && UrnOf(rows[i]) == u
  {
    hide UrnOf;
    if i :| 0 <= i < |rows| && UrnOf(rows[i]) == u {
      assert UrnField(rows[i]) == Field(rows[i].members, "urn", Null);
    }
    if u in Urns(rows) {
      var i :| 0 <= i < |rows| && rows[i].Obj? && Field(rows[i].members, "urn", Null).Str?
        && Field(rows[i].members, "urn", Null).s == u;
      assert UrnField(rows[i]) == Str(u);
    }
  }

  lemma {:induction false} LinkExactly(schema: Schema, rows: seq<Value>, inventory: Inventory, row: Members)
    requires RowsSound(schema, rows) && IsInventory(inventory, rows)
    ensures ProviderResolves(schema, row, inventory) <==>
      (Truthy(Field(row, "provider", Str([]))) ==> LinksProvider(schema, rows, Field(row, "provider", Str([]))))
  {
    hide RowsSound, IsInventory, Truthy, LastSeparator, NoSeparator;
    InventoryHolds(schema, rows, inventory);
    var link := Field(row, "provider", Str([]));
    if Truthy(link) {
      if ProviderResolves(schema, row, inventory) {
        ResolvedLinks(schema, rows, inventory, link.s);
      }
      if LinksProvider(schema, rows, link) {
        var i, id :| 0 <= i < |rows| && IsProvider(schema, rows[i], link, id);
        var head := Field(rows[i].members, "urn", Null).s;
        SeparatorFound(head, id);
        assert link.s == head + T("::") + id && link.s[..|head|] == head && link.s[|head| + 2..] == id;
      }
    }
  }

  lemma {:induction false} ResolvedLinks(schema: Schema, rows: seq<Value>, inventory: Inventory, link: Text)
    requires RowsSound(schema, rows) && IsInventory(inventory, rows) && LastSeparator(link).Some?
    requires var at := LastSeparator(link).value; var urn := link[..at];
      && urn in inventory && Field(inventory[urn], "id", Null) == Str(link[at + 2..])
      && Field(inventory[urn], "type", Null).Str? && schema.providers <= Field(inventory[urn], "type", Null).s
    ensures LinksProvider(schema, rows, Str(link))
  {
    hide RowsSound, LastSeparator;
    InventoryHolds(schema, rows, inventory);
    SeparatorRest(link);
    var at := LastSeparator(link).value;
    var i :| 0 <= i < |rows| && UrnOf(rows[i]) == link[..at];
    assert UrnField(rows[i]) == Str(link[..at]);
    assert IsProvider(schema, rows[i], Str(link), link[at + 2..]);
  }

  lemma {:induction false} OthersExactly(items: Value, inventory: Inventory, urns: set<Text>, own: Value)
    requires inventory.Keys == urns
    ensures NamesOthers(items, urns, own) <==> items.Arr? && OtherRows(items.items, inventory, own)
  {
  }

  lemma {:induction false} ReferencesExactly(
    schema: Schema, rows: seq<Value>, inventory: Inventory, m: Members)
    requires RowsSound(schema, rows) && IsInventory(inventory, rows) && SoundRow(schema, m)
    ensures ReferencesOk(schema, m, inventory) <==> SoundReferences(schema, m, rows)
  {
    InputsOf(schema, m);
    hide RowsSound, IsInventory, Truthy, ProviderResolves, LinksProvider, SoundRow, OtherRows, NamesOthers, Urns;
    InventoryHolds(schema, rows, inventory);
    LinkExactly(schema, rows, inventory, m);
    var urns, own := Urns(rows), Field(m, "urn", Null);
    OthersExactly(Field(m, "dependencies", Arr([])), inventory, urns, own);
    var properties := Field(m, "propertyDependencies", Obj(map[]));
    if properties.Obj? {
      forall k | k in properties.members
        ensures NamesOthers(properties.members[k], urns, own) <==>
          properties.members[k].Arr? && OtherRows(properties.members[k].items, inventory, own)
      {
        OthersExactly(properties.members[k], inventory, urns, own);
      }
    }
  }

  lemma {:induction false} InputsOf(schema: Schema, m: Members)
    requires SoundRow(schema, m)
    ensures Field(m, "inputs", Obj(map[])).Obj?
  {
  }

  lemma {:induction false} GoalExactly(schema: Schema, urn: Text, goal: Members, row: Members)
    ensures GoalOk(schema, urn, goal, row) <==> GoalAsksNothing(schema, urn, goal, row)
  {
    hide Print, Truthy, LastPart, IsNameOf;
    if Field(goal, "name", Null).Str? {
      NameExactly(Field(goal, "name", Null).s, urn);
    }
  }

  lemma {:induction false} PlanExactly(schema: Schema, urn: Text, plan: Value, row: Members)
    ensures PlanOk(schema, urn, plan, row) <==> AsksNothing(schema, urn, plan, row)
  {
    hide GoalOk, GoalAsksNothing;
    if plan.Obj? && Field(plan.members, "goal", Null).Obj? {
      GoalExactly(schema, urn, Field(plan.members, "goal", Null).members, row);
    }
  }

  lemma {:induction false} SavedExactly(schema: Schema, saved: Value, rows: seq<Value>, inventory: Inventory)
    requires RowsSound(schema, rows) && IsInventory(inventory, rows)
    ensures SavedOk(schema, saved, inventory) <==> SavedAsksNothing(schema, saved, rows)
  {
    hide RowsSound, PlanOk, AsksNothing, IsInventory;
    InventoryHolds(schema, rows, inventory);
    if saved.Obj? && Field(saved.members, "resourcePlans", Null).Obj? {
      var plans := Field(saved.members, "resourcePlans", Null).members;
      PlansExactly(schema, plans, rows, inventory);
    }
  }

  lemma {:induction false} PlansExactly(schema: Schema, plans: Members, rows: seq<Value>, inventory: Inventory)
    requires RowsSound(schema, rows) && IsInventory(inventory, rows)
    ensures (forall u :: u in inventory ==> u in plans && PlanOk(schema, u, plans[u], inventory[u]))
      <==> forall i :: 0 <= i < |rows| ==> PlanFor(schema, plans, rows[i])
  {
    hide RowsSound, PlanOk, AsksNothing, UrnOf;
    InventoryHolds(schema, rows, inventory);
    forall i | 0 <= i < |rows|
      ensures var u := UrnOf(rows[i]);
        u in inventory && (PlanFor(schema, plans, rows[i]) <==> u in plans && PlanOk(schema, u, plans[u], inventory[u]))
    {
      var u := UrnOf(rows[i]);
      assert UrnField(rows[i]) == Str(u);
      if u in plans {
        PlanExactly(schema, u, plans[u], inventory[u]);
      }
    }
    forall u | u in inventory ensures exists i :: 0 <= i < |rows| && UrnOf(rows[i]) == u {
    }
  }

  lemma {:induction false} StepExactly(schema: Schema, step: Value, row: Value, inventory: Inventory)
    requires row.Obj? && UrnField(row) == Str(UrnOf(row))
    requires UrnOf(row) in inventory && inventory[UrnOf(row)] == row.members
    ensures ShowsSame(schema, step, row) ==> StepOk(schema, step, inventory) && UrnOf(step) == UrnOf(row)
    ensures StepOk(schema, step, inventory) && UrnOf(step) == UrnOf(row) ==> ShowsSame(schema, step, row)
  {
    hide Print, Redact, Truthy, PyEq;
  }

  lemma {:induction false} StepsExactly(schema: Schema, steps: seq<Value>, rows: seq<Value>, inventory: Inventory)
    requires RowsSound(schema, rows) && IsInventory(inventory, rows)
    ensures StepsOk(schema, steps, inventory) <==>
      && (forall i :: 0 <= i < |steps| ==> ShowsSome(schema, steps[i], rows))
      && forall i, j :: 0 <= i < j < |steps| ==> UrnField(steps[i]) != UrnField(steps[j])
  {
    hide RowsSound, StepOk, ShowsSome, UrnOf, UrnField, IsInventory;
    forall k | 0 <= k < |steps|
      ensures StepOk(schema, steps[k], inventory) <==> ShowsSome(schema, steps[k], rows)
      ensures ShowsSome(schema, steps[k], rows) ==> UrnField(steps[k]) == Str(UrnOf(steps[k]))
    {
      OneStep(schema, steps[k], rows, inventory);
    }
  }

  lemma {:induction false} OneStep(schema: Schema, step: Value, rows: seq<Value>, inventory: Inventory)
    requires RowsSound(schema, rows) && IsInventory(inventory, rows)
    ensures StepOk(schema, step, inventory) <==> ShowsSome(schema, step, rows)
    ensures ShowsSome(schema, step, rows) ==> UrnField(step) == Str(UrnOf(step))
  {
    hide RowsSound, StepOk, ShowsSame, UrnOf, UrnField;
    InventoryHolds(schema, rows, inventory);
    forall i | 0 <= i < |rows|
      ensures ShowsSame(schema, step, rows[i]) ==> StepOk(schema, step, inventory) && UrnField(step) == Str(UrnOf(step))
    {
      StepExactly(schema, step, rows[i], inventory);
      ShownUrn(schema, step, rows[i]);
    }
    if StepOk(schema, step, inventory) {
      StepUrnKnown(schema, step, inventory);
      var i :| 0 <= i < |rows| && UrnOf(rows[i]) == UrnOf(step);
      StepExactly(schema, step, rows[i], inventory);
    }
  }

  lemma {:induction false} ShownUrn(schema: Schema, step: Value, row: Value)
    ensures ShowsSame(schema, step, row) ==> UrnField(step) == Str(UrnOf(step))
  {
  }

  lemma {:induction false} StepUrnKnown(schema: Schema, step: Value, inventory: Inventory)
    requires StepOk(schema, step, inventory)
    ensures UrnOf(step) in inventory
  {
  }

  lemma {:induction false} PreviewExactly(schema: Schema, preview: Value, rows: seq<Value>, inventory: Inventory)
    requires RowsSound(schema, rows) && IsInventory(inventory, rows)
    ensures FrameOk(schema, preview) && StepsOk(schema, PreviewSteps(preview), inventory) <==>
      PreviewShowsSame(schema, preview, rows)
  {
    hide RowsSound, IsInventory, StepsOk, ShowsSome, UrnField;
    StepsExactly(schema, PreviewSteps(preview), rows, inventory);
  }

  lemma {:induction false} AllReferencesExactly(schema: Schema, rows: seq<Value>, inventory: Inventory)
    requires RowsSound(schema, rows) && IsInventory(inventory, rows)
    ensures forall i :: 0 <= i < |rows| ==> rows[i].Obj?
    ensures (forall u :: u in inventory ==> ReferencesOk(schema, inventory[u], inventory))
      <==> forall i :: 0 <= i < |rows| ==> SoundReferences(schema, rows[i].members, rows)
  {
    hide SoundReferences, ReferencesOk, SoundRow, UrnOf, UrnField;
    InventoryHolds(schema, rows, inventory);
    forall i | 0 <= i < |rows|
      ensures UrnOf(rows[i]) in inventory && inventory[UrnOf(rows[i])] == rows[i].members
      ensures ReferencesOk(schema, rows[i].members, inventory) <==> SoundReferences(schema, rows[i].members, rows)
    {
      ReferencesExactly(schema, rows, inventory, rows[i].members);
    }
  }

  lemma {:induction false} InventoryExactly(
    schema: Schema, preview: Value, saved: Value, rows: seq<Value>, inventory: Inventory)
    requires RowsSound(schema, rows) && IsInventory(inventory, rows)
    ensures forall i :: 0 <= i < |rows| ==> rows[i].Obj?
    ensures Unchanged(schema, preview, saved, inventory) <==>
      && schema.root in Urns(rows)
      && (forall i :: 0 <= i < |rows| ==> SoundReferences(schema, rows[i].members, rows))
      && SavedAsksNothing(schema, saved, rows) && PreviewShowsSame(schema, preview, rows)
  {
    hide SavedOk, FrameOk, StepsOk, SavedAsksNothing, PreviewShowsSame, SoundReferences, ReferencesOk, RowsSound;
    hide PreviewSteps, UrnOf, UrnField, IsInventory, Urns;
    InventoryHolds(schema, rows, inventory);
    SavedExactly(schema, saved, rows, inventory);
    PreviewExactly(schema, preview, rows, inventory);
    AllReferencesExactly(schema, rows, inventory);
  }

  /** The gate lets pass exactly the documents that change nothing. */
  lemma {:induction false} AcceptsExactly(schema: Schema, preview: Value, saved: Value, resources: Value)
    ensures Accepts(schema, preview, saved, resources) <==> ChangesNothing(schema, preview, saved, resources)
  {
    hide RowsOk, RowsSound, IsInventory, Unchanged, SavedAsksNothing, PreviewShowsSame, SoundReferences, Urns;
    if resources.Arr? && resources.items != [] {
      var rows := resources.items;
      RowsExactly(schema, rows);
      if RowsOk(schema, rows) {
        var inventory := SomeInventory(schema, rows);
        forall other | IsInventory(other, rows) ensures other == inventory {
          InventoryUnique(other, inventory, rows);
        }
        InventoryExactly(schema, preview, saved, rows, inventory);
      }
    }
  }

  /** The plan that asks for nothing is accepted with every preview that shows rows as staying the same. */
  lemma {:induction false} UnchangedShownAccepted(
    schema: Schema, seed: Text, rows: seq<Value>, inventory: Inventory, preview: Value)
    requires SchemaOk(schema) && schema.seedLength(seed) == Some(32)
    requires rows != [] && RowsOk(schema, rows) && IsInventory(inventory, rows) && InventoryOk(schema, inventory)
    ensures Accepts(schema, preview, UnchangedSaved(schema, seed, inventory), Arr(rows)) <==>
      PreviewShowsSame(schema, preview, rows)
  {
    hide Accepts, SchemaOk, RowsOk, IsInventory, InventoryOk, RowsSound, SavedAsksNothing, SoundReferences;
    hide PreviewShowsSame, UnchangedSaved, Urns;
    UnchangedAccepted(schema, seed, rows, inventory);
    AcceptsExactly(schema, Obj(map[STEPS := Arr([])]), UnchangedSaved(schema, seed, inventory), Arr(rows));
    AcceptsExactly(schema, preview, UnchangedSaved(schema, seed, inventory), Arr(rows));
  }
}
