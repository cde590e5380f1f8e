/**
 The ruleset builder against its verifier: what it builds has no blockers, keeps what was there, and is built
 again from itself.
 */
module RulesetProperties {
  import opened Options
  import opened Texts
  import opened Json
  import opened Rulesets

  lemma {:induction false} KindsDiffer()
    ensures DELETION != NO_FORCE && DELETION != PULL && DELETION != CHECKS
    ensures NO_FORCE != PULL && NO_FORCE != CHECKS && PULL != CHECKS
    ensures TYPE != PARAMETERS && STRICT != CHECKS && CONTEXT != ISSUER
  {
  }

  lemma {:induction false} ReviewFieldsDiffer()
    ensures REVIEWERS !in {MERGE, DISMISS, OWNERS, LAST_PUSH, THREADS, COUNT}
    ensures COUNT !in {MERGE, DISMISS, OWNERS, LAST_PUSH, THREADS}
  {
  }

  // ---------------------------------------------------------------- checks

  /** What hardening did to one check: only the promotion gate's issuer is filled in. */
  predicate Hardened(g: Gates, app: int, item: Value, check: Members) {
    && item.Obj?
    && Get(check, CONTEXT, Null) == Get(item.members, CONTEXT, Null)
    && Get(check, CONTEXT, Null).Str? && !Blank(Get(check, CONTEXT, Null).s)
    && (if Get(check, CONTEXT, Null) == Str(g.promotion) then
          && check == item.members[ISSUER := Int(app)]
          && (Get(item.members, ISSUER, Null) == Null || PyEq(Get(item.members, ISSUER, Null), Int(app)))
        else check == item.members)
  }

  lemma {:induction false} CheckHardened(g: Gates, app: int, item: Value)
    ensures HardenCheck(g, app, item).Some? ==> Hardened(g, app, item, HardenCheck(g, app, item).value)
  {
  }

  lemma {:induction false} ChecksHardened(g: Gates, app: int, items: seq<Value>)
    requires HardenChecks(g, app, items).Some?
    ensures var checks := HardenChecks(g, app, items).value;
      |checks| == |items| && forall i :: 0 <= i < |items| ==> Hardened(g, app, items[i], checks[i])
  {
    hide HardenCheck, Hardened;
    if items != [] {
      var n := |items| - 1;
      ChecksHardened(g, app, items[..n]);
      CheckHardened(g, app, items[n]);
      assert forall i :: 0 <= i < n ==> items[..n][i] == items[i];
    }
  }

  lemma {:induction false} ContextIn(checks: seq<Members>, i: nat)
    requires i < |checks|
    ensures Get(checks[i], CONTEXT, Null) in Contexts(checks)
  {
  }

  lemma {:induction false} MissingAt(g: Gates, app: int, contexts: set<Value>, n: nat, i: nat)
    requires i < n <= |g.required| && Str(g.required[i]) !in contexts
    ensures BaselineCheck(g, app, g.required[i]) in MissingChecks(g, app, contexts, n)
  {
    if i < n - 1 {
      MissingAt(g, app, contexts, n - 1, i);
    }
  }

  lemma {:induction false} MissingFrom(g: Gates, app: int, contexts: set<Value>, n: nat, k: nat) returns (i: nat)
    requires n <= |g.required| && k < |MissingChecks(g, app, contexts, n)|
    ensures i < n && Str(g.required[i]) !in contexts
    ensures MissingChecks(g, app, contexts, n)[k] == BaselineCheck(g, app, g.required[i])
  {
    var front := MissingChecks(g, app, contexts, n - 1);
    if k < |front| {
      i := MissingFrom(g, app, contexts, n - 1, k);
    } else {
      i := n - 1;
    }
  }

  /** Check `k` is gate `i`, which none of the first `n` checks names. */
  predicate AddedGate(g: Gates, app: int, checks: seq<Members>, n: nat, k: nat, i: nat) {
    && n <= k < |checks| && i < |g.required| && checks[k] == BaselineCheck(g, app, g.required[i])
    && forall j :: 0 <= j < n ==> Get(checks[j], CONTEXT, Null) != Str(g.required[i])
  }

  predicate Added(g: Gates, app: int, checks: seq<Members>, n: nat, k: nat) {
    exists i :: 0 <= i < |g.required| && AddedGate(g, app, checks, n, k, i)
  }

  /**
   Every check there was is kept, in its place, with its context and issuer (the promotion gate's is filled
   in); every check added is a gate that no existing check names.
   */
  lemma {:induction false} ChecksKept(g: Gates, app: int, items: seq<Value>)
    requires AllChecks(g, app, items).Some?
    ensures var checks := AllChecks(g, app, items).value;
      && |items| <= |checks|
      && (forall i :: 0 <= i < |items| ==> Hardened(g, app, items[i], checks[i]))
      && (forall k :: |items| <= k < |checks| ==> Added(g, app, checks, |items|, k))
  {
    hide Hardened, BaselineCheck;
    ChecksHardened(g, app, items);
    var hardened, checks := HardenChecks(g, app, items).value, AllChecks(g, app, items).value;
    forall k | |items| <= k < |checks|
      ensures Added(g, app, checks, |items|, k)
    {
      var i := MissingFrom(g, app, Contexts(hardened), |g.required|, k - |items|);
      forall j | 0 <= j < |items| ensures Get(checks[j], CONTEXT, Null) != Str(g.required[i]) {
        ContextIn(hardened, j);
      }
      assert AddedGate(g, app, checks, |items|, k, i);
    }
  }

  /** Every gate is among the checks. */
  lemma {:induction false} GatePresent(g: Gates, app: int, items: seq<Value>, i: nat) returns (k: nat)
    requires AllChecks(g, app, items).Some? && i < |g.required|
    ensures k < |AllChecks(g, app, items).value|
    ensures Get(AllChecks(g, app, items).value[k], CONTEXT, Null) == Str(g.required[i])
    ensures g.required[i] == g.promotion ==> Get(AllChecks(g, app, items).value[k], ISSUER, Null) == Int(app)
  {
    KindsDiffer();
    ChecksHardened(g, app, items);
    var hardened, checks := HardenChecks(g, app, items).value, AllChecks(g, app, items).value;
    if Str(g.required[i]) in Contexts(hardened) {
      k :| 0 <= k < |hardened| && Get(hardened[k], CONTEXT, Null) == Str(g.required[i]);
      assert Hardened(g, app, items[k], hardened[k]) && checks[k] == hardened[k];
    } else {
      MissingAt(g, app, Contexts(hardened), |g.required|, i);
      var missing := MissingChecks(g, app, Contexts(hardened), |g.required|);
      var m :| 0 <= m < |missing| && missing[m] == BaselineCheck(g, app, g.required[i]);
      k := |hardened| + m;
      assert checks[k] == missing[m];
    }
  }

  // ---------------------------------------------------------------- finding the rules again

  lemma {:induction false} LastIsOfType(rules: seq<Rule>, kind: Text)
    ensures OfType(LastOf(rules, kind, Plain(kind)), kind)
  {
    if rules != [] {
      LastIsOfType(rules[..|rules| - 1], kind);
    }
  }

  lemma {:induction false} OthersAdditional(rules: seq<Rule>)
    ensures forall i :: 0 <= i < |Others(rules)| ==> Additional(Others(rules)[i])
  {
    if rules != [] {
      OthersAdditional(rules[..|rules| - 1]);
    }
  }

  lemma {:induction false} LastSkips(front: seq<Rule>, more: seq<Rule>, kind: Text, default: Rule)
    requires forall i :: 0 <= i < |more| ==> !OfType(more[i], kind)
    ensures LastOf(front + more, kind, default) == LastOf(front, kind, default)
    ensures CountOf(front + more, kind) == CountOf(front, kind)
    decreases |more|
  {
    if more == [] {
      assert front + more == front;
    } else {
      var all := front + more;
      assert all[..|all| - 1] == front + more[..|more| - 1] && all[|all| - 1] == more[|more| - 1];
      LastSkips(front, more[..|more| - 1], kind, default);
    }
  }

  lemma {:induction false} OthersSkip(front: seq<Rule>, more: seq<Rule>)
    requires forall i :: 0 <= i < |front| ==> !Additional(front[i])
    requires forall i :: 0 <= i < |more| ==> Additional(more[i])
    ensures Others(front + more) == more
    decreases |front| + |more|
  {
    var all := front + more;
    if more != [] {
      assert all[..|all| - 1] == front + more[..|more| - 1] && all[|all| - 1] == more[|more| - 1];
      OthersSkip(front, more[..|more| - 1]);
      assert more == more[..|more| - 1] + [more[|more| - 1]];
    } else if front != [] {
      assert all[..|all| - 1] == front[..|front| - 1] + more && all[|all| - 1] == front[|front| - 1];
      OthersSkip(front[..|front| - 1], more);
    }
  }

  /** The four leading rules of a payload have the four replaced types. */
  predicate Headed(head: seq<Rule>) {
    && |head| == 4 && OfType(head[0], DELETION) && OfType(head[1], NO_FORCE)
    && OfType(head[2], PULL) && OfType(head[3], CHECKS)
  }

  lemma {:induction false} PayloadHead(g: Gates, app: int, rules: seq<Rule>)
    requires Payload(g, app, rules).Some?
    ensures var p := Payload(g, app, rules).value;
      && |p| >= 4 && Headed(p[..4]) && p[4..] == Others(rules)
      && HardenPullRule(LastOf(rules, PULL, map[])) == Some(p[2])
      && HardenStatusRule(g, app, LastOf(rules, CHECKS, map[])) == Some(p[3])
      && p[0] == LastOf(rules, DELETION, Plain(DELETION)) && p[1] == LastOf(rules, NO_FORCE, Plain(NO_FORCE))
  {
    hide LastOf, Others, AllChecks, AtLeastOne, CountOf;
    KindsDiffer();
    LastIsOfType(rules, DELETION);
    LastIsOfType(rules, NO_FORCE);
  }

  lemma {:induction false} HeadLookup(head: seq<Rule>, default: Rule)
    requires Headed(head)
    ensures LastOf(head, DELETION, default) == head[0] && LastOf(head, NO_FORCE, default) == head[1]
    ensures LastOf(head, PULL, default) == head[2] && LastOf(head, CHECKS, default) == head[3]
    ensures CountOf(head, CHECKS) == 1
  {
    KindsDiffer();
    var three, two, one := head[..3], head[..2], head[..1];
    assert three[..2] == two && two[..1] == one && one[..0] == [];
    assert LastOf(one, DELETION, default) == head[0];
    assert LastOf(two, NO_FORCE, default) == head[1] && LastOf(two, DELETION, default) == head[0];
    assert LastOf(three, PULL, default) == head[2];
    assert LastOf(three, DELETION, default) == LastOf(two, DELETION, default);
    assert LastOf(three, NO_FORCE, default) == LastOf(two, NO_FORCE, default);
    assert CountOf(three, CHECKS) == CountOf(two, CHECKS) == CountOf(one, CHECKS) == 0;
  }

  /** The replaced rules of a payload are found where they were put. */
  lemma {:induction false} PayloadLookup(p: seq<Rule>, rules: seq<Rule>, default: Rule)
    requires |p| >= 4 && Headed(p[..4]) && p[4..] == Others(rules)
    ensures LastOf(p, DELETION, default) == p[0] && LastOf(p, NO_FORCE, default) == p[1]
    ensures LastOf(p, PULL, default) == p[2] && LastOf(p, CHECKS, default) == p[3]
    ensures CountOf(p, CHECKS) == 1 && Others(p) == Others(rules)
  {
    hide LastOf, CountOf, Others;
    OthersAdditional(rules);
    assert p == p[..4] + p[4..];
    KindsDiffer();
    HeadLookup(p[..4], default);
    LastSkips(p[..4], p[4..], DELETION, default);
    LastSkips(p[..4], p[4..], NO_FORCE, default);
    LastSkips(p[..4], p[4..], PULL, default);
    LastSkips(p[..4], p[4..], CHECKS, default);
    OthersSkip(p[..4], p[4..]);
  }

  /** Every rule of another type is kept, in order, and nothing else is added. */
  lemma {:induction false} OthersKept(g: Gates, app: int, rules: seq<Rule>)
    requires Payload(g, app, rules).Some?
    ensures Others(Payload(g, app, rules).value) == Others(rules) == Payload(g, app, rules).value[4..]
  {
    hide Others, Payload;
    PayloadHead(g, app, rules);
    PayloadLookup(Payload(g, app, rules).value, rules, map[]);
  }

  // ---------------------------------------------------------------- built again

  lemma {:induction false} HardenPullIdempotent(existing: Rule)
    requires HardenPullRule(existing).Some?
    ensures HardenPullRule(HardenPullRule(existing).value) == HardenPullRule(existing)
  {
    KindsDiffer();
    ReviewFieldsDiffer();
    var rule := HardenPullRule(existing).value;
    var m := rule[PARAMETERS].members;
    assert m[REVIEWERS := m[REVIEWERS]] == m;
    assert (m + REVIEW_DEFAULTS)[REVIEWERS := m[REVIEWERS]][COUNT := m[COUNT]] == m;
    assert rule[TYPE := Str(PULL)][PARAMETERS := rule[PARAMETERS]] == rule;
  }

  lemma {:induction false} HardenedAgain(g: Gates, app: int, item: Value, check: Members)
    requires Hardened(g, app, item, check)
    ensures HardenCheck(g, app, Obj(check)) == Some(check)
  {
    KindsDiffer();
    if Get(check, CONTEXT, Null) == Str(g.promotion) {
      assert check[ISSUER := Int(app)] == check;
    }
  }

  lemma {:induction false} BaselineAgain(g: Gates, app: int, context: Text)
    requires !Blank(context)
    ensures HardenCheck(g, app, Obj(BaselineCheck(g, app, context))) == Some(BaselineCheck(g, app, context))
  {
    KindsDiffer();
    var check := BaselineCheck(g, app, context);
    if context == g.promotion {
      assert check[ISSUER := Int(app)] == check;
    }
  }

  lemma {:induction false} ChecksAgain(g: Gates, app: int, checks: seq<Members>)
    requires forall i :: 0 <= i < |checks| ==> HardenCheck(g, app, Obj(checks[i])) == Some(checks[i])
    ensures HardenChecks(g, app, AsItems(checks)) == Some(checks)
  {
    hide HardenCheck;
    if checks != [] {
      var n := |checks| - 1;
      ChecksAgain(g, app, checks[..n]);
      assert AsItems(checks)[..n] == AsItems(checks[..n]);
      assert checks == checks[..n] + [checks[n]];
    }
  }

  lemma {:induction false} NoneMissing(g: Gates, app: int, contexts: set<Value>, n: nat)
    requires n <= |g.required| && forall i :: 0 <= i < n ==> Str(g.required[i]) in contexts
    ensures MissingChecks(g, app, contexts, n) == []
  {
    if n > 0 {
      NoneMissing(g, app, contexts, n - 1);
    }
  }

  lemma {:induction false} AllChecksAgain(g: Gates, app: int, items: seq<Value>)
    requires GatesOk(g) && AllChecks(g, app, items).Some?
    ensures AllChecks(g, app, AsItems(AllChecks(g, app, items).value)) == AllChecks(g, app, items)
  {
    hide HardenCheck, BaselineCheck, Hardened, AllChecks, HardenChecks, Contexts, MissingChecks;
    var checks := AllChecks(g, app, items).value;
    ChecksKept(g, app, items);
    forall i | 0 <= i < |checks| ensures HardenCheck(g, app, Obj(checks[i])) == Some(checks[i]) {
      if i < |items| {
        HardenedAgain(g, app, items[i], checks[i]);
      } else {
        assert Added(g, app, checks, |items|, i);
        var j :| 0 <= j < |g.required| && AddedGate(g, app, checks, |items|, i, j);
        BaselineAgain(g, app, g.required[j]);
      }
    }
    ChecksAgain(g, app, checks);
    forall i | 0 <= i < |g.required| ensures Str(g.required[i]) in Contexts(checks) {
      var k := GatePresent(g, app, items, i);
      ContextIn(checks, k);
    }
    NoneMissing(g, app, Contexts(checks), |g.required|);
    AllChecksOf(g, app, checks);
  }

  lemma {:induction false} AllChecksOf(g: Gates, app: int, checks: seq<Members>)
    requires HardenChecks(g, app, AsItems(checks)) == Some(checks)
    requires MissingChecks(g, app, Contexts(checks), |g.required|) == []
    ensures AllChecks(g, app, AsItems(checks)) == Some(checks)
  {
    assert checks + [] == checks;
  }

  lemma {:induction false} HardenStatusIdempotent(g: Gates, app: int, existing: Rule)
    requires GatesOk(g) && HardenStatusRule(g, app, existing).Some?
    ensures HardenStatusRule(g, app, HardenStatusRule(g, app, existing).value) == HardenStatusRule(g, app, existing)
  {
    hide AllChecks;
    KindsDiffer();
    var items := Get(Get(existing, PARAMETERS, NOTHING).members, CHECKS, EMPTY).items;
    AllChecksAgain(g, app, items);
    var rule := HardenStatusRule(g, app, existing).value;
    var m := rule[PARAMETERS].members;
    assert m[STRICT := Bool(true)][CHECKS := m[CHECKS]] == m;
    assert rule[TYPE := Str(CHECKS)][PARAMETERS := rule[PARAMETERS]] == rule;
  }

  /** Building from a built ruleset gives it back. */
  lemma {:induction false} PayloadFixedPoint(g: Gates, app: int, rules: seq<Rule>)
    requires GatesOk(g) && Payload(g, app, rules).Some?
    ensures Payload(g, app, Payload(g, app, rules).value) == Payload(g, app, rules)
  {
    hide Others, HardenPullRule, HardenStatusRule, LastOf, CountOf;
    PayloadHead(g, app, rules);
    var p := Payload(g, app, rules).value;
    PayloadLookup(p, rules, map[]);
    PayloadLookup(p, rules, Plain(DELETION));
    PayloadLookup(p, rules, Plain(NO_FORCE));
    HardenPullIdempotent(LastOf(rules, PULL, map[]));
    HardenStatusIdempotent(g, app, LastOf(rules, CHECKS, map[]));
    assert p == [p[0], p[1], p[2], p[3]] + p[4..];
  }

  // ---------------------------------------------------------------- no blockers

  /** The review count of the pull-request rule that is hardened. */
  function ReviewCount(rules: seq<Rule>): Value {
    var parameters := Get(LastOf(rules, PULL, map[]), PARAMETERS, NOTHING);
    if parameters.Obj? then Get(parameters.members, COUNT, Int(1)) else Null
  }

  /** `max` keeps a float above one as it is, and the verifier does not take it for a count. */
  predicate FloatCount(rules: seq<Rule>) {
    ReviewCount(rules).Float? && ReviewCount(rules).value > 1.0
  }

  function ExistingChecks(existing: Rule): seq<Value> {
    var parameters := Get(existing, PARAMETERS, NOTHING);
    if parameters.Obj? && Get(parameters.members, CHECKS, EMPTY).Arr? then Get(parameters.members, CHECKS, EMPTY).items
    else []
  }

  lemma {:induction false} StatusRuleChecks(g: Gates, app: int, existing: Rule, rule: Rule)
    requires HardenStatusRule(g, app, existing) == Some(rule)
    ensures var items := ExistingChecks(existing);
      AllChecks(g, app, items).Some? && CheckItems(Obj(rule)) == AsItems(AllChecks(g, app, items).value)
    ensures IsStrict(Obj(rule))
  {
  }

  /** A status rule with every gate in it satisfies the context, issuer and strictness checks. */
  lemma {:induction false} StatusUnblocked(g: Gates, app: int, rules: seq<Value>, i: nat, existing: Rule, rule: Rule)
    requires GatesOk(g) && i < |rules| && rules[i] == Obj(rule)
    requires HardenStatusRule(g, app, existing) == Some(rule)
    ensures RequiredSet(g) <= RequiredContexts(rules) && HasIssuer(g, app, rules)
    ensures IsStrict(rules[i])
  {
    hide HardenStatusRule, AllChecks, IsStrict, CheckItems;
    StatusRuleChecks(g, app, existing, rule);
    var items := ExistingChecks(existing);
    var checks := AllChecks(g, app, items).value;
    forall c | c in RequiredSet(g) ensures c in RequiredContexts(rules) {
      var m :| 0 <= m < |g.required| && g.required[m] == c;
      var k := GatePresent(g, app, items, m);
      NamedContext(checks[k], c);
      assert CheckContext(CheckItems(rules[i])[k]) == Some(c);
    }
    var m :| 0 <= m < |g.required| && g.required[m] == g.promotion;
    var k := GatePresent(g, app, items, m);
    NamedContext(checks[k], g.promotion);
    assert CheckItems(rules[i])[k] == Obj(checks[k]);
  }

  lemma {:induction false} NamedContext(check: Members, c: Text)
    requires Get(check, CONTEXT, Null) == Str(c) && !Blank(c)
    ensures CheckContext(Obj(check)) == Some(c)
  {
  }

  lemma {:induction false} PullReviews(existing: Rule, rule: Rule)
    requires HardenPullRule(existing) == Some(rule)
    ensures Get(rule, PARAMETERS, Null).Obj?
    ensures var m := Get(rule, PARAMETERS, Null).members;
      && (forall flag :: flag in {THREADS, DISMISS, OWNERS, LAST_PUSH} ==> Get(m, flag, Null) == Bool(true))
      && AtLeastOne(Get(Get(existing, PARAMETERS, NOTHING).members, COUNT, Int(1))) == Some(Get(m, COUNT, Null))
  {
  }

  lemma {:induction false} CountAccepted(count: Value)
    requires AtLeastOne(count).Some?
    ensures CountReviews(AtLeastOne(count).value) <==> !(count.Float? && count.value > 1.0)
  {
  }

  lemma {:induction false} FirstReviews(p: seq<Rule>)
    requires |p| >= 4 && Headed(p[..4]) && Get(p[2], PARAMETERS, Null).Obj?
    ensures ReviewParameters(AsItems(p)) == Some(Get(p[2], PARAMETERS, Null).members)
  {
    KindsDiffer();
    var items := AsItems(p);
    assert OfType(p[0], DELETION) && OfType(p[1], NO_FORCE) && OfType(p[2], PULL) by {
      assert p[..4][0] == p[0] && p[..4][1] == p[1] && p[..4][2] == p[2];
    }
    assert items[1..][0] == Obj(p[1]) && items[1..][1..][0] == Obj(p[2]);
    assert ReviewParameters(items) == ReviewParameters(items[1..]) == ReviewParameters(items[1..][1..]);
  }

  /**
   A built ruleset satisfies its own verifier exactly when the existing review count, if there is one, is not
   a float above one.
   */
  lemma {:induction false} PayloadUnblocked(g: Gates, app: int, rules: seq<Rule>)
    requires GatesOk(g) && Payload(g, app, rules).Some?
    ensures Unblocked(g, app, AsItems(Payload(g, app, rules).value)) <==> !FloatCount(rules)
  {
    hide HardenPullRule, HardenStatusRule, LastOf, Payload, HasIssuer;
    hide RequiredContexts, IsStrict, AtLeastOne, CountReviews;
    PayloadHead(g, app, rules);
    var p := Payload(g, app, rules).value;
    StatusUnblocked(g, app, AsItems(p), 3, LastOf(rules, CHECKS, map[]), p[3]);
    assert IsStrict(AsItems(p)[3]);
    PullReviews(LastOf(rules, PULL, map[]), p[2]);
    FirstReviews(p);
    PullIsMapping(LastOf(rules, PULL, map[]));
    CountAccepted(ReviewCount(rules));
  }

  lemma {:induction false} PullIsMapping(existing: Rule)
    requires HardenPullRule(existing).Some?
    ensures Get(existing, PARAMETERS, NOTHING).Obj?
  {
  }

  function FloatCountRule(): Rule {
    map[TYPE := Str(PULL), PARAMETERS := Obj(map[COUNT := Float(T("1.5"), 1.5)])]
  }

  /** The exception exists: an existing count of 1.5 is carried over, and refused afterwards. */
  lemma {:induction false} FloatCountBlocked(g: Gates, app: int)
    requires GatesOk(g) && app > 0 && app != GITHUB_ACTIONS
    ensures Payload(g, app, [FloatCountRule()]).Some?
    ensures !Unblocked(g, app, AsItems(Payload(g, app, [FloatCountRule()]).value))
  {
    hide Unblocked, MissingChecks;
    KindsDiffer();
    var rules := [FloatCountRule()];
    assert rules[..0] == [];
    assert LastOf(rules, PULL, map[]) == FloatCountRule() && LastOf(rules, CHECKS, map[]) == map[];
    assert HardenChecks(g, app, []) == Some([]);
    PayloadUnblocked(g, app, rules);
  }
}
