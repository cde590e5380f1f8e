/**
 The ruleset builder and its verifier once more, as statements about rules in the names the documents use: which
 rules a payload has, and when a ruleset has no blockers (scripts/_github_repository_controls.py).
 */
module RulesetReference {
  import opened Options
  import opened Texts
  import opened Json
  import opened Rulesets
  import opened RulesetProperties

  predicate Typed(rule: Rule, name: string) {
    T("type") in rule && rule[T("type")] == Str(T(name))
  }

  function Field(m: Members, name: string, default: Value): Value {
    if T(name) in m then m[T(name)] else default
  }

  /** The strictly ascending positions of a set. */
  predicate Positions(at: seq<nat>, chosen: set<nat>) {
    && (forall k, l :: 0 <= k < l < |at| ==> at[k] < at[l])
    && (forall i :: i in at ==> i in chosen) && (forall i :: i in chosen ==> i in at)
  }

  lemma {:induction false} PositionsUnique(a: seq<nat>, b: seq<nat>, chosen: set<nat>)
    requires Positions(a, chosen) && Positions(b, chosen)
    ensures a == b
  {
    PositionsCount(a, chosen);
    PositionsCount(b, chosen);
    if a != [] {
      var n := |a| - 1;
      LastPosition(a, b, chosen);
      LastPosition(b, a, chosen);
      FrontPositions(a, chosen);
      FrontPositions(b, chosen);
      PositionsUnique(a[..n], b[..n], chosen - {a[n]});
      assert a == a[..n] + [a[n]] && b == b[..n] + [b[n]];
    }
  }

  lemma {:induction false} PositionsCount(a: seq<nat>, chosen: set<nat>)
    requires Positions(a, chosen)
    ensures |a| == |chosen|
  {
    if a == [] {
      assert chosen == {};
    } else {
      FrontPositions(a, chosen);
      PositionsCount(a[..|a| - 1], chosen - {a[|a| - 1]});
    }
  }

  lemma {:induction false} FrontPositions(a: seq<nat>, chosen: set<nat>)
    requires Positions(a, chosen) && a != []
    ensures a[|a| - 1] in chosen && Positions(a[..|a| - 1], chosen - {a[|a| - 1]})
  {
    var n := |a| - 1;
    assert a[n] in a;
    forall i | i in a[..n] ensures i in chosen - {a[n]} {
      assert i in a;
    }
    forall i | i in chosen - {a[n]} ensures i in a[..n] {
      assert i in a;
    }
  }

  lemma {:induction false} LastPosition(a: seq<nat>, b: seq<nat>, chosen: set<nat>)
    requires Positions(a, chosen) && Positions(b, chosen) && a != [] && b != []
    ensures a[|a| - 1] <= b[|b| - 1]
  {
    assert a[|a| - 1] in a;
    assert a[|a| - 1] in b;
    var k :| 0 <= k < |b| && b[k] == a[|a| - 1];
  }

  // ---------------------------------------------------------------- which rules there are

  /** The rule is of a type of its own, not one the program builds. */
  predicate OfOtherType(rule: Rule) {
    && T("type") in rule && rule[T("type")].Str?
    && !Typed(rule, "deletion") && !Typed(rule, "non_fast_forward")
    && !Typed(rule, "pull_request") && !Typed(rule, "required_status_checks")
  }

  function OtherPositions(rules: seq<Rule>): set<nat> {
    set i: nat | i < |rules| && OfOtherType(rules[i])
  }

  /** `others` are the rules of other types, in order. */
  predicate AreOthers(rules: seq<Rule>, others: seq<Rule>, at: seq<nat>) {
    Positions(at, OtherPositions(rules)) && |others| == |at|
    && forall k :: 0 <= k < |at| ==> at[k] < |rules| && others[k] == rules[at[k]]
  }

  /** `rule` is the last rule of the type, or else the default. */
  predicate IsLast(rules: seq<Rule>, name: string, default: Rule, rule: Rule) {
    || (rule == default && forall i :: 0 <= i < |rules| ==> !Typed(rules[i], name))
    || (exists i :: 0 <= i < |rules| && LastAt(rules, name, rule, i))
  }

  predicate LastAt(rules: seq<Rule>, name: string, rule: Rule, i: nat)
    requires i < |rules|
  {
    Typed(rules[i], name) && rules[i] == rule && forall j :: i < j < |rules| ==> !Typed(rules[j], name)
  }

  lemma {:induction false} OtherExactly(rule: Rule)
    ensures OfOtherType(rule) <==> Additional(rule)
  {
  }

  lemma {:induction false} PositionsAppend(at: seq<nat>, chosen: set<nat>, n: nat)
    requires Positions(at, chosen) && forall i :: i in chosen ==> i < n
    ensures Positions(at + [n], chosen + {n})
  {
    forall k | 0 <= k < |at| ensures at[k] < n {
      assert at[k] in at;
    }
    forall i | i in chosen + {n} ensures i in at + [n] {
      assert i in chosen ==> i in at;
    }
  }

  lemma {:induction false} OthersAt(rules: seq<Rule>) returns (at: seq<nat>)
    ensures AreOthers(rules, Others(rules), at)
  {
    if rules == [] {
      at := [];
    } else {
      var n: nat := |rules| - 1;
      var some := OthersAt(rules[..n]);
      OtherExactly(rules[n]);
      hide OfOtherType, Additional, Positions;
      OthersStep(rules, rules[..n]);
      if OfOtherType(rules[n]) {
        PositionsAppend(some, OtherPositions(rules[..n]), n);
        at := some + [n];
      } else {
        assert OtherPositions(rules) == OtherPositions(rules[..n]);
        at := some;
      }
      assert forall k :: 0 <= k < |some| ==> rules[..n][some[k]] == rules[some[k]];
    }
  }

  lemma {:induction false} OthersStep(rules: seq<Rule>, front: seq<Rule>)
    requires rules != [] && front == rules[..|rules| - 1]
    ensures OtherPositions(rules) == OtherPositions(front) + if OfOtherType(rules[|front|]) then {|front|} else {}
    ensures forall i :: i in OtherPositions(front) ==> i < |front|
  {
    hide OfOtherType;
    assert forall i :: 0 <= i < |front| ==> front[i] == rules[i];
  }

  lemma {:induction false} OthersExactly(rules: seq<Rule>, others: seq<Rule>)
    ensures others == Others(rules) <==> exists at :: AreOthers(rules, others, at)
  {
    var at := OthersAt(rules);
    if at' :| AreOthers(rules, others, at') {
      PositionsUnique(at, at', OtherPositions(rules));
      assert others == Others(rules);
    }
  }

  lemma {:induction false} LastExactly(rules: seq<Rule>, name: string, default: Rule, rule: Rule)
    ensures IsLast(rules, name, default, rule) <==> rule == LastOf(rules, T(name), default)
  {
    if rules != [] {
      var n := |rules| - 1;
      var front := rules[..n];
      LastExactly(front, name, default, rule);
      assert forall i :: 0 <= i < n ==> front[i] == rules[i];
      hide LastOf, Typed, OfType;
      TypedExactly(rules[n], name);
      LastStep(rules, T(name), default);
      if Typed(rules[n], name) {
        assert LastAt(rules, name, rules[n], n);
      } else {
        if i :| 0 <= i < n && LastAt(front, name, rule, i) {
          assert LastAt(rules, name, rule, i);
        }
        if i :| 0 <= i < |rules| && LastAt(rules, name, rule, i) {
          assert LastAt(front, name, rule, i);
        }
      }
    }
  }

  lemma {:induction false} TypedExactly(rule: Rule, name: string)
    ensures Typed(rule, name) <==> OfType(rule, T(name))
  {
  }

  lemma {:induction false} LastStep(rules: seq<Rule>, kind: Text, default: Rule)
    requires rules != []
    ensures LastOf(rules, kind, default) ==
      if OfType(rules[|rules| - 1], kind) then rules[|rules| - 1] else LastOf(rules[..|rules| - 1], kind, default)
  {
  }

  // ---------------------------------------------------------------- reviews

  /** `max(1, count)` of a number. */
  predicate Stricter(count: Value, result: Value) {
    match count
    case Int(n) => if n > 1 then result == Int(n) else result == Int(1)
    case Float(_, x) => if x > 1.0 then result == count else result == Int(1)
    case Bool(_) => result == Int(1)
    case _ => false
  }

  /** The parameters with the review gates set; a larger count and the required reviewers are kept. */
  predicate Reviewed(old_: Members, m: Members) {
    && m.Keys == old_.Keys + {T("allowed_merge_methods"), T("dismiss_stale_reviews_on_push"),
         T("require_code_owner_review"), T("require_last_push_approval"), T("required_review_thread_resolution"),
         T("required_reviewers"), T("required_approving_review_count")}
    && m[T("allowed_merge_methods")] == Arr([Str(T("squash"))])
    && m[T("dismiss_stale_reviews_on_push")] == m[T("require_code_owner_review")] == Bool(true)
    && m[T("require_last_push_approval")] == m[T("required_review_thread_resolution")] == Bool(true)
    && m[T("required_reviewers")] == Field(old_, "required_reviewers", Arr([]))
    && Stricter(Field(old_, "required_approving_review_count", Int(1)), m[T("required_approving_review_count")])
    && forall k :: k in old_ && !Gate(k) ==> m[k] == old_[k]
  }

  predicate Gate(k: Text) {
    k in {T("allowed_merge_methods"), T("dismiss_stale_reviews_on_push"), T("require_code_owner_review"),
          T("require_last_push_approval"), T("required_review_thread_resolution"), T("required_reviewers"),
          T("required_approving_review_count")}
  }

  /** The rule under this type and these parameters, otherwise as it was. */
  function Rebuilt(old_: Rule, name: string, parameters: Members): Rule {
    old_[T("type") := Str(T(name))][T("parameters") := Obj(parameters)]
  }

  predicate PullBuilt(old_: Rule, rule: Rule) {
    && Field(old_, "parameters", Obj(map[])).Obj?
    && T("parameters") in rule && rule[T("parameters")].Obj?
    && rule == Rebuilt(old_, "pull_request", rule[T("parameters")].members)
    && Reviewed(Field(old_, "parameters", Obj(map[])).members, rule[T("parameters")].members)
  }

  lemma {:induction false} GateNames()
    ensures MERGE !in {DISMISS, OWNERS, LAST_PUSH, THREADS, REVIEWERS, COUNT}
    ensures DISMISS !in {OWNERS, LAST_PUSH, THREADS, REVIEWERS, COUNT}
    ensures OWNERS !in {LAST_PUSH, THREADS, REVIEWERS, COUNT} && LAST_PUSH !in {THREADS, REVIEWERS, COUNT}
    ensures THREADS !in {REVIEWERS, COUNT} && REVIEWERS != COUNT
  {
    assert |MERGE| == 21 && |DISMISS| == 29 && |OWNERS| == 25 && |LAST_PUSH| == 26 && |THREADS| == 33;
    assert |REVIEWERS| == 18 && |COUNT| == 31;
  }

  lemma {:induction false} StricterExactly(count: Value, result: Value)
    ensures Stricter(count, result) <==> AtLeastOne(count) == Some(result)
  {
  }

  /** What the program makes of the parameters. */
  function Built(m: Members, count: Value): Members {
    (m + REVIEW_DEFAULTS)[REVIEWERS := Get(m, REVIEWERS, EMPTY)][COUNT := count]
  }

  lemma {:induction false} BuiltAt(m: Members, count: Value)
    ensures var b := Built(m, count);
      && b.Keys == m.Keys + {MERGE, DISMISS, OWNERS, LAST_PUSH, THREADS, REVIEWERS, COUNT}
      && b[MERGE] == Arr([Str(T("squash"))]) && b[DISMISS] == b[OWNERS] == b[LAST_PUSH] == b[THREADS] == Bool(true)
      && b[REVIEWERS] == Get(m, REVIEWERS, EMPTY) && b[COUNT] == count
      && forall k :: k in m && !Gate(k) ==> b[k] == m[k]
  {
    GateNames();
  }

  lemma {:induction false} ReviewedExactly(old_: Members, m: Members)
    ensures Reviewed(old_, m) <==>
      var count := AtLeastOne(Get(old_, COUNT, Int(1)));
      count.Some? && m == Built(old_, count.value)
  {
    hide AtLeastOne, Stricter, Built;
    var before := Get(old_, COUNT, Int(1));
    if Reviewed(old_, m) {
      StricterExactly(before, m[COUNT]);
      BuiltAt(old_, m[COUNT]);
      assert m == Built(old_, m[COUNT]);
    }
    if AtLeastOne(before).Some? {
      StricterExactly(before, AtLeastOne(before).value);
      BuiltAt(old_, AtLeastOne(before).value);
    }
  }

  lemma {:induction false} ParameterNames()
    ensures TYPE != PARAMETERS
  {
    assert |TYPE| == 4 && |PARAMETERS| == 10;
  }

  lemma {:induction false} PullExactly(old_: Rule, rule: Rule)
    ensures PullBuilt(old_, rule) <==> HardenPullRule(old_) == Some(rule)
  {
    hide AtLeastOne, Reviewed;
    ParameterNames();
    var parameters := Get(old_, PARAMETERS, NOTHING);
    if parameters.Obj? {
      var m := parameters.members;
      var count := AtLeastOne(Get(m, COUNT, Int(1)));
      if T("parameters") in rule && rule[T("parameters")].Obj? {
        ReviewedExactly(m, rule[T("parameters")].members);
      }
      if count.Some? {
        assert HardenPullRule(old_) == Some(Rebuilt(old_, "pull_request", Built(m, count.value)));
        ReviewedExactly(m, Built(m, count.value));
      }
    }
  }

  // ---------------------------------------------------------------- status checks

  /** A well-formed check is kept; the promotion gate's is given its issuer, unless it has another. */
  predicate CheckBuilt(g: Gates, app: int, item: Value, check: Members) {
    && item.Obj? && T("context") in item.members && item.members[T("context")].Str?
    && var context := item.members[T("context")].s;
    && (exists i :: 0 <= i < |context| && !IsSpace(context[i]))
    && if context == g.promotion then
         && (Field(item.members, "integration_id", Null) == Null
             || PyEq(Field(item.members, "integration_id", Null), Int(app)))
         && check == item.members[T("integration_id") := Int(app)]
       else check == item.members
  }

  predicate AllBuilt(g: Gates, app: int, items: seq<Value>, checks: seq<Members>) {
    |checks| == |items| && forall i :: 0 <= i < |items| ==> CheckBuilt(g, app, items[i], checks[i])
  }

  function GateCheck(g: Gates, app: int, context: Text): Members {
    if context == g.promotion then map[T("context") := Str(context), T("integration_id") := Int(app)]
    else map[T("context") := Str(context)]
  }

  /** No check names this gate. */
  predicate Lacks(checks: seq<Members>, gate: Text) {
    forall j :: 0 <= j < |checks| ==> Field(checks[j], "context", Null) != Str(gate)
  }

  function Lacking(g: Gates, checks: seq<Members>, n: nat): set<nat>
    requires n <= |g.required|
  {
    set i: nat | i < n && Lacks(checks, g.required[i])
  }

  /** The added checks are those of the lacking gates, in the order the gates are documented. */
  predicate GatesAdded(g: Gates, app: int, checks: seq<Members>, added: seq<Members>, at: seq<nat>, n: nat)
    requires n <= |g.required|
  {
    && Positions(at, Lacking(g, checks, n)) && |added| == |at|
    && forall k :: 0 <= k < |at| ==> at[k] < |g.required| && added[k] == GateCheck(g, app, g.required[at[k]])
  }

  /** The checks there were, then the lacking gates. */
  ghost predicate ChecksBuilt(g: Gates, app: int, items: seq<Value>, checks: seq<Members>) {
    && |items| <= |checks| && AllBuilt(g, app, items, checks[..|items|])
    && exists at :: GatesAdded(g, app, checks[..|items|], checks[|items|..], at, |g.required|)
  }

  ghost predicate StatusBuilt(g: Gates, app: int, old_: Rule, rule: Rule) {
    && Field(old_, "parameters", Obj(map[])).Obj?
    && var m := Field(old_, "parameters", Obj(map[])).members;
    && Field(m, "required_status_checks", Arr([])).Arr?
    && exists checks :: StatusBuiltWith(g, app, old_, rule, m, checks)
  }

  ghost predicate StatusBuiltWith(g: Gates, app: int, old_: Rule, rule: Rule, m: Members, checks: seq<Members>)
    requires Field(m, "required_status_checks", Arr([])).Arr?
  {
    && ChecksBuilt(g, app, Field(m, "required_status_checks", Arr([])).items, checks)
    && var strict := m[T("strict_required_status_checks_policy") := Bool(true)];
       rule == Rebuilt(
         old_, "required_status_checks", strict[T("required_status_checks") := Arr(AsItems(checks))])
  }

  lemma {:induction false} CheckExactly(g: Gates, app: int, item: Value, check: Members)
    ensures CheckBuilt(g, app, item, check) <==> HardenCheck(g, app, item) == Some(check)
  {
  }

  lemma {:induction false} AllExactly(g: Gates, app: int, items: seq<Value>, checks: seq<Members>)
    ensures AllBuilt(g, app, items, checks) <==> HardenChecks(g, app, items) == Some(checks)
  {
    hide CheckBuilt, HardenCheck;
    if items != [] {
      var n := |items| - 1;
      assert forall i :: 0 <= i < n ==> items[..n][i] == items[i];
      if checks != [] {
        var front := checks[..|checks| - 1];
        assert checks == front + [checks[|checks| - 1]];
        AllExactly(g, app, items[..n], front);
        CheckExactly(g, app, items[n], checks[|checks| - 1]);
        AllStep(g, app, items, checks);
      }
    }
  }

  lemma {:induction false} AllStep(g: Gates, app: int, items: seq<Value>, checks: seq<Members>)
    requires items != [] && checks != []
    ensures AllBuilt(g, app, items, checks) <==>
      && AllBuilt(g, app, items[..|items| - 1], checks[..|checks| - 1])
      && CheckBuilt(g, app, items[|items| - 1], checks[|checks| - 1])
  {
    hide CheckBuilt;
    var n := |items| - 1;
    if AllBuilt(g, app, items[..n], checks[..|checks| - 1]) && CheckBuilt(g, app, items[n], checks[|checks| - 1]) {
      forall i | 0 <= i < |items| ensures CheckBuilt(g, app, items[i], checks[i]) {
        if i < n {
          assert CheckBuilt(g, app, items[..n][i], checks[..|checks| - 1][i]);
        }
      }
    }
  }

  lemma {:induction false} LacksExactly(checks: seq<Members>, gate: Text)
    ensures Lacks(checks, gate) <==> Str(gate) !in Contexts(checks)
  {
  }

  lemma {:induction false} MissingPositions(g: Gates, app: int, checks: seq<Members>, n: nat) returns (at: seq<nat>)
    requires n <= |g.required|
    ensures GatesAdded(g, app, checks, MissingChecks(g, app, Contexts(checks), n), at, n)
  {
    if n == 0 {
      at := [];
    } else {
      var some := MissingPositions(g, app, checks, n - 1);
      LacksExactly(checks, g.required[n - 1]);
      hide Lacks, Positions, Contexts;
      LackingStep(g, checks, n - 1);
      if Lacks(checks, g.required[n - 1]) {
        PositionsAppend(some, Lacking(g, checks, n - 1), n - 1);
        at := some + [n - 1];
      } else {
        at := some;
      }
    }
  }

  lemma {:induction false} LackingStep(g: Gates, checks: seq<Members>, n: nat)
    requires n < |g.required|
    ensures Lacking(g, checks, n + 1) == Lacking(g, checks, n) + if Lacks(checks, g.required[n]) then {n} else {}
    ensures forall i :: i in Lacking(g, checks, n) ==> i < n
  {
    hide Lacks;
  }

  lemma {:induction false} MissingExactly(g: Gates, app: int, checks: seq<Members>, added: seq<Members>)
    ensures (exists at :: GatesAdded(g, app, checks, added, at, |g.required|)) <==>
      added == MissingChecks(g, app, Contexts(checks), |g.required|)
  {
    var at := MissingPositions(g, app, checks, |g.required|);
    if at' :| GatesAdded(g, app, checks, added, at', |g.required|) {
      PositionsUnique(at, at', Lacking(g, checks, |g.required|));
    }
  }

  lemma {:induction false} ChecksExactly(g: Gates, app: int, items: seq<Value>, checks: seq<Members>)
    ensures ChecksBuilt(g, app, items, checks) <==> AllChecks(g, app, items) == Some(checks)
  {
    hide AllBuilt, GatesAdded, HardenChecks, MissingChecks, Contexts;
    if |items| <= |checks| {
      var front, added := checks[..|items|], checks[|items|..];
      AllExactly(g, app, items, front);
      MissingExactly(g, app, front, added);
      assert checks == front + added;
    }
    if HardenChecks(g, app, items).Some? {
      var hardened := HardenChecks(g, app, items).value;
      AllExactly(g, app, items, hardened);
      HardenedLength(g, app, items, hardened);
      if AllChecks(g, app, items) == Some(checks) {
        assert checks[..|items|] == hardened;
      }
    }
  }

  lemma {:induction false} HardenedLength(g: Gates, app: int, items: seq<Value>, checks: seq<Members>)
    requires AllBuilt(g, app, items, checks)
    ensures |checks| == |items|
  {
  }

  lemma {:induction false} StatusExactly(g: Gates, app: int, old_: Rule, rule: Rule)
    ensures StatusBuilt(g, app, old_, rule) <==> HardenStatusRule(g, app, old_) == Some(rule)
  {
    hide ChecksBuilt, AllChecks, AsItems;
    var parameters := Get(old_, PARAMETERS, NOTHING);
    if parameters.Obj? && Get(parameters.members, CHECKS, EMPTY).Arr? {
      var items := Get(parameters.members, CHECKS, EMPTY).items;
      if checks :| StatusBuiltWith(g, app, old_, rule, parameters.members, checks) {
        ChecksExactly(g, app, items, checks);
      }
      if AllChecks(g, app, items).Some? {
        var checks := AllChecks(g, app, items).value;
        ChecksExactly(g, app, items, checks);
        assert HardenStatusRule(g, app, old_) == Some(rule) ==>
          StatusBuiltWith(g, app, old_, rule, parameters.members, checks);
      }
    }
  }

  // ---------------------------------------------------------------- the payload

  predicate SingleStatusRule(rules: seq<Rule>) {
    forall i, j :: 0 <= i < j < |rules| ==>
      !(Typed(rules[i], "required_status_checks") && Typed(rules[j], "required_status_checks"))
  }

  /** Built from the last rule of this type there is, or from an empty one. */
  ghost predicate PullFrom(rules: seq<Rule>, rule: Rule) {
    exists old_ :: IsLast(rules, "pull_request", map[], old_) && PullBuilt(old_, rule)
  }

  ghost predicate StatusFrom(g: Gates, app: int, rules: seq<Rule>, rule: Rule) {
    exists old_ :: IsLast(rules, "required_status_checks", map[], old_) && StatusBuilt(g, app, old_, rule)
  }

  /** The rules of a payload: the four hardened ones, then the others as they are. */
  ghost predicate PayloadBuilt(g: Gates, app: int, rules: seq<Rule>, p: seq<Rule>) {
    && 0 < app && app != 15368 && SingleStatusRule(rules) && |p| >= 4
    && IsLast(rules, "deletion", map[T("type") := Str(T("deletion"))], p[0])
    && IsLast(rules, "non_fast_forward", map[T("type") := Str(T("non_fast_forward"))], p[1])
    && PullFrom(rules, p[2]) && StatusFrom(g, app, rules, p[3])
    && exists at :: AreOthers(rules, p[4..], at)
  }

  lemma {:induction false} CountExactly(rules: seq<Rule>, name: string)
    ensures CountOf(rules, T(name)) == 0 <==> forall i :: 0 <= i < |rules| ==> !Typed(rules[i], name)
    ensures CountOf(rules, T(name)) <= 1 <==>
      forall i, j :: 0 <= i < j < |rules| ==> !(Typed(rules[i], name) && Typed(rules[j], name))
  {
    if rules != [] {
      var n := |rules| - 1;
      CountExactly(rules[..n], name);
      TypedExactly(rules[n], name);
      hide Typed, OfType;
      assert forall i :: 0 <= i < n ==> rules[..n][i] == rules[i];
    }
  }

  lemma {:induction false} PullFromExactly(rules: seq<Rule>, rule: Rule)
    ensures PullFrom(rules, rule) <==> HardenPullRule(LastOf(rules, T("pull_request"), map[])) == Some(rule)
  {
    hide IsLast, LastOf, PullBuilt, HardenPullRule;
    var last := LastOf(rules, T("pull_request"), map[]);
    LastExactly(rules, "pull_request", map[], last);
    PullExactly(last, rule);
    if old_ :| IsLast(rules, "pull_request", map[], old_) && PullBuilt(old_, rule) {
      LastExactly(rules, "pull_request", map[], old_);
    }
  }

  lemma {:induction false} StatusFromExactly(g: Gates, app: int, rules: seq<Rule>, rule: Rule)
    ensures StatusFrom(g, app, rules, rule) <==>
      HardenStatusRule(g, app, LastOf(rules, T("required_status_checks"), map[])) == Some(rule)
  {
    hide IsLast, LastOf, StatusBuilt, HardenStatusRule;
    var last := LastOf(rules, T("required_status_checks"), map[]);
    LastExactly(rules, "required_status_checks", map[], last);
    StatusExactly(g, app, last, rule);
    if old_ :| IsLast(rules, "required_status_checks", map[], old_) && StatusBuilt(g, app, old_, rule) {
      LastExactly(rules, "required_status_checks", map[], old_);
    }
  }

  /** The builder returns exactly these rules, and fails exactly if there are none such. */
  lemma {:induction false} PayloadExactly(g: Gates, app: int, rules: seq<Rule>, p: seq<Rule>)
    ensures Payload(g, app, rules) == Some(p) <==> PayloadBuilt(g, app, rules, p)
  {
    hide IsLast, LastOf, PullFrom, StatusFrom, HardenPullRule, HardenStatusRule, Others, AreOthers, CountOf, Typed;
    CountExactly(rules, "required_status_checks");
    if |p| >= 4 {
      LastExactly(rules, "deletion", map[T("type") := Str(T("deletion"))], p[0]);
      LastExactly(rules, "non_fast_forward", map[T("type") := Str(T("non_fast_forward"))], p[1]);
      PullFromExactly(rules, p[2]);
      StatusFromExactly(g, app, rules, p[3]);
      OthersExactly(rules, p[4..]);
      assert p == [p[0], p[1], p[2], p[3]] + p[4..];
    }
  }

  // ---------------------------------------------------------------- the verifier

  /** Check number `j` of rule number `i`, in a status-check rule. */
  predicate Listed(rules: seq<Value>, i: nat, j: nat, item: Value) {
    && i < |rules| && rules[i].Obj? && Typed(rules[i].members, "required_status_checks")
    && var parameters := Field(rules[i].members, "parameters", Null);
    && parameters.Obj?
    && var items := Field(parameters.members, "required_status_checks", Null);
    && items.Arr? && j < |items.items| && items.items[j] == item
  }

  /** The check is for this context, by its `context` or, without one, by its `name`. */
  predicate Named(item: Value, context: Text) {
    && item.Obj? && context != []
    && (Field(item.members, "context", Null) == Str(context)
        || (!Truthy(Field(item.members, "context", Null)) && Field(item.members, "name", Null) == Str(context)))
  }

  predicate ListedFor(rules: seq<Value>, i: nat, j: nat, item: Value, context: Text) {
    Listed(rules, i, j, item) && Named(item, context)
  }

  predicate Issued(app: int, item: Value) {
    item.Obj? && PyEq(Field(item.members, "integration_id", Null), Int(app))
  }

  predicate Strict(rule: Value) {
    && rule.Obj? && Typed(rule.members, "required_status_checks")
    && var parameters := Field(rule.members, "parameters", Null);
       parameters.Obj? && Field(parameters.members, "strict_required_status_checks_policy", Null) == Bool(true)
  }

  predicate PullParameters(rule: Value) {
    rule.Obj? && Typed(rule.members, "pull_request") && Field(rule.members, "parameters", Null).Obj?
  }

  predicate FirstPull(rules: seq<Value>, i: nat) {
    i < |rules| && PullParameters(rules[i]) && forall j :: 0 <= j < i ==> !PullParameters(rules[j])
  }

  /** Rule number `i` is the first with review parameters, and they ask for reviews. */
  predicate AsksReviews(rules: seq<Value>, i: nat) {
    FirstPull(rules, i) && Reviewing(Field(rules[i].members, "parameters", Null).members)
  }

  predicate Reviewing(m: Members) {
    && var count := Field(m, "required_approving_review_count", Null);
    && ((count.Int? && count.n >= 1) || count == Bool(true))
    && Field(m, "required_review_thread_resolution", Null) == Bool(true)
    && Field(m, "dismiss_stale_reviews_on_push", Null) == Bool(true)
    && Field(m, "require_code_owner_review", Null) == Bool(true)
    && Field(m, "require_last_push_approval", Null) == Bool(true)
  }

  /** Every gate is required, the promotion gate from its issuer, strictly, and reviews are. */
  ghost predicate Protects(g: Gates, app: int, rules: seq<Value>) {
    && (forall k :: 0 <= k < |g.required| ==> GateListed(rules, g.required[k]))
    && (exists i, j, item :: ListedFor(rules, i, j, item, g.promotion) && Issued(app, item))
    && (exists i :: 0 <= i < |rules| && Strict(rules[i]))
    && (exists i :: AsksReviews(rules, i))
  }

  ghost predicate GateListed(rules: seq<Value>, context: Text) {
    exists i, j, item :: ListedFor(rules, i, j, item, context)
  }

  lemma {:induction false} ListedExactly(rules: seq<Value>, i: nat, j: nat, item: Value)
    ensures Listed(rules, i, j, item) <==> i < |rules| && j < |CheckItems(rules[i])| && CheckItems(rules[i])[j] == item
  {
    if i < |rules| && rules[i].Obj? {
      TypedExactly(rules[i].members, "required_status_checks");
    }
  }

  lemma {:induction false} NamedExactly(item: Value, context: Text)
    ensures Named(item, context) <==> CheckContext(item) == Some(context)
  {
  }

  lemma {:induction false} GateExactly(rules: seq<Value>, context: Text)
    ensures GateListed(rules, context) <==> context in RequiredContexts(rules)
  {
    hide Listed, Named, CheckItems, CheckContext;
    if i, j, item :| ListedFor(rules, i, j, item, context) {
      ListedExactly(rules, i, j, item);
      NamedExactly(item, context);
    }
    if context in RequiredContexts(rules) {
      var i, j :| 0 <= i < |rules| && 0 <= j < |CheckItems(rules[i])|
        && CheckContext(CheckItems(rules[i])[j]) == Some(context);
      ListedExactly(rules, i, j, CheckItems(rules[i])[j]);
      NamedExactly(CheckItems(rules[i])[j], context);
      assert ListedFor(rules, i, j, CheckItems(rules[i])[j], context);
    }
  }

  lemma {:induction false} IssuerExactly(g: Gates, app: int, rules: seq<Value>)
    ensures HasIssuer(g, app, rules) <==>
      exists i, j, item :: ListedFor(rules, i, j, item, g.promotion) && Issued(app, item)
  {
    hide Listed, Named, CheckItems, CheckContext, PyEq;
    if i, j, item :| ListedFor(rules, i, j, item, g.promotion) && Issued(app, item) {
      ListedExactly(rules, i, j, item);
      NamedExactly(item, g.promotion);
    }
    if HasIssuer(g, app, rules) {
      var i, j :| 0 <= i < |rules| && 0 <= j < |CheckItems(rules[i])|
        && var item := CheckItems(rules[i])[j];
           item.Obj? && CheckContext(item) == Some(g.promotion) && PyEq(Get(item.members, ISSUER, Null), Int(app));
      var item := CheckItems(rules[i])[j];
      ListedExactly(rules, i, j, item);
      NamedExactly(item, g.promotion);
      assert ListedFor(rules, i, j, item, g.promotion) && Issued(app, item);
    }
  }

  lemma {:induction false} StrictExactly(rule: Value)
    ensures Strict(rule) <==> IsStrict(rule)
  {
  }

  lemma {:induction false} FirstParameters(rules: seq<Value>) returns (i: nat)
    requires ReviewParameters(rules).Some?
    ensures FirstPull(rules, i)
    ensures ReviewParameters(rules) == Some(Field(rules[i].members, "parameters", Null).members)
  {
    PullsExactly(rules[0]);
    hide PullParameters;
    if PullParameters(rules[0]) {
      i := 0;
    } else {
      var rest := FirstParameters(rules[1..]);
      i := rest + 1;
      assert forall j :: 0 < j < |rules| ==> rules[1..][j - 1] == rules[j];
    }
  }

  lemma {:induction false} NoParameters(rules: seq<Value>)
    requires ReviewParameters(rules).None?
    ensures forall i :: 0 <= i < |rules| ==> !PullParameters(rules[i])
  {
    if rules != [] {
      PullsExactly(rules[0]);
      NoParameters(rules[1..]);
      assert forall j :: 0 < j < |rules| ==> rules[1..][j - 1] == rules[j];
    }
  }

  lemma {:induction false} PullsExactly(rule: Value)
    ensures PullParameters(rule) <==>
      rule.Obj? && OfType(rule.members, PULL) && Get(rule.members, PARAMETERS, Null).Obj?
  {
  }

  lemma {:induction false} ReviewingExactly(m: Members)
    ensures Reviewing(m) <==>
      && CountReviews(Get(m, COUNT, Null))
      && forall flag :: flag in {THREADS, DISMISS, OWNERS, LAST_PUSH} ==> Get(m, flag, Null) == Bool(true)
  {
    assert (forall flag :: flag in {THREADS, DISMISS, OWNERS, LAST_PUSH} ==> Get(m, flag, Null) == Bool(true)) ==>
      && Get(m, THREADS, Null) == Get(m, DISMISS, Null) == Bool(true)
      && Get(m, OWNERS, Null) == Get(m, LAST_PUSH, Null) == Bool(true);
  }

  lemma {:induction false} ReviewsExactly(rules: seq<Value>)
    ensures HasReviews(rules) <==> exists i :: AsksReviews(rules, i)
  {
    hide Reviewing, CountReviews, PullParameters, ReviewParameters;
    if ReviewParameters(rules).Some? {
      var i := FirstParameters(rules);
      ReviewingExactly(ReviewParameters(rules).value);
      assert HasReviews(rules) ==> AsksReviews(rules, i);
      if k :| AsksReviews(rules, k) {
        assert k == i;
      }
    } else {
      NoParameters(rules);
    }
  }

  /** A ruleset has no blockers exactly if it protects the branch. */
  lemma {:induction false} UnblockedExactly(g: Gates, app: int, rules: seq<Value>)
    ensures Unblocked(g, app, rules) <==> Protects(g, app, rules)
  {
    hide GateListed, RequiredContexts, HasIssuer, IsStrict, Strict, HasReviews, AsksReviews, ListedFor, Issued;
    IssuerExactly(g, app, rules);
    ReviewsExactly(rules);
    forall i | 0 <= i < |rules| ensures Strict(rules[i]) <==> IsStrict(rules[i]) {
      StrictExactly(rules[i]);
    }
    forall k | 0 <= k < |g.required|
      ensures GateListed(rules, g.required[k]) <==> g.required[k] in RequiredContexts(rules)
    {
      GateExactly(rules, g.required[k]);
    }
    assert RequiredSet(g) <= RequiredContexts(rules) <==>
      forall k :: 0 <= k < |g.required| ==> g.required[k] in RequiredContexts(rules) by {
      assert forall k :: 0 <= k < |g.required| ==> g.required[k] in RequiredSet(g);
    }
  }
}
