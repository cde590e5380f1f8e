/**
 The branch ruleset builder and its verifier (scripts/_github_repository_controls.py): existing rules are
 hardened, and the hardened ruleset has to satisfy the blockers the same program checks after an apply.
 */
module Rulesets {
  import opened Options
  import opened Texts
  import opened Json

  type Rule = Members

  const TYPE: Text := T("type")
  const PARAMETERS: Text := T("parameters")
  const CHECKS: Text := T("required_status_checks")
  const STRICT: Text := T("strict_required_status_checks_policy")
  const CONTEXT: Text := T("context")
  const NAME: Text := T("name")
  const ISSUER: Text := T("integration_id")
  const COUNT: Text := T("required_approving_review_count")
  const REVIEWERS: Text := T("required_reviewers")
  const DISMISS: Text := T("dismiss_stale_reviews_on_push")
  const OWNERS: Text := T("require_code_owner_review")
  const LAST_PUSH: Text := T("require_last_push_approval")
  const THREADS: Text := T("required_review_thread_resolution")
  const MERGE: Text := T("allowed_merge_methods")
  const DELETION: Text := T("deletion")
  const NO_FORCE: Text := T("non_fast_forward")
  const PULL: Text := T("pull_request")
  const REPLACED: set<Text> := {DELETION, NO_FORCE, PULL, CHECKS}
  const GITHUB_ACTIONS: int := 15368

  /** The documented pull-request gates, and the one among them whose issuer is pinned. */
  datatype Gates = Gates(required: seq<Text>, promotion: Text)

  /** The gates are named, and the promotion gate is one of them. */
  predicate GatesOk(g: Gates) {
    g.promotion in g.required && forall i :: 0 <= i < |g.required| ==> !Blank(g.required[i])
  }

  /** `not t.strip()`. */
  predicate Blank(t: Text) {
    forall i :: 0 <= i < |t| ==> IsSpace(t[i])
  }

  function Get(m: Members, key: Text, default: Value): Value {
    if key in m then m[key] else default
  }

  const NOTHING: Value := Obj(map[])
  const EMPTY: Value := Arr([])

  // ---------------------------------------------------------------- status checks

  /** `_harden_status_check`. */
  function HardenCheck(g: Gates, app: int, item: Value): Option<Members> {
    if !item.Obj? then None
    else
      var m := item.members;
      var context, issuer := Get(m, CONTEXT, Null), Get(m, ISSUER, Null);
      if !context.Str? || Blank(context.s) then None
      else if context.s != g.promotion then Some(m)
      else if issuer == Null || PyEq(issuer, Int(app)) then Some(m[ISSUER := Int(app)])
      else None
  }

  function HardenChecks(g: Gates, app: int, items: seq<Value>): Option<seq<Members>> {
    if items == [] then Some([])
    else
      var front :- HardenChecks(g, app, items[..|items| - 1]);
      var last :- HardenCheck(g, app, items[|items| - 1]);
      Some(front + [last])
  }

  function BaselineCheck(g: Gates, app: int, context: Text): Members {
    if context == g.promotion then map[CONTEXT := Str(context), ISSUER := Int(app)] else map[CONTEXT := Str(context)]
  }

  function Contexts(checks: seq<Members>): set<Value> {
    set i | 0 <= i < |checks| :: Get(checks[i], CONTEXT, Null)
  }

  /** The first `n` gates that `contexts` lacks. */
  function MissingChecks(g: Gates, app: int, contexts: set<Value>, n: nat): seq<Members>
    requires n <= |g.required|
  {
    if n == 0 then []
    else
      var front := MissingChecks(g, app, contexts, n - 1);
      if Str(g.required[n - 1]) in contexts then front else front + [BaselineCheck(g, app, g.required[n - 1])]
  }

  function AsItems(checks: seq<Members>): seq<Value> {
    seq(|checks|, i requires 0 <= i < |checks| => Obj(checks[i]))
  }

  /** The hardened list: the checks there were, then the missing gates. */
  function AllChecks(g: Gates, app: int, items: seq<Value>): Option<seq<Members>> {
    var checks :- HardenChecks(g, app, items);
    Some(checks + MissingChecks(g, app, Contexts(checks), |g.required|))
  }

  /** `harden_required_status_checks_rule`. */
  function HardenStatusRule(g: Gates, app: int, existing: Rule): Option<Rule> {
    var parameters := Get(existing, PARAMETERS, NOTHING);
    if !parameters.Obj? || !Get(parameters.members, CHECKS, EMPTY).Arr? then None
    else
      var checks :- AllChecks(g, app, Get(parameters.members, CHECKS, EMPTY).items);
      var hardened := parameters.members[STRICT := Bool(true)][CHECKS := Arr(AsItems(checks))];
      Some(existing[TYPE := Str(CHECKS)][PARAMETERS := Obj(hardened)])
  }

  /** The program's loops: each check hardened, then the missing gates appended. */
  method ReconcileChecks(g: Gates, app: int, items: seq<Value>) returns (r: Option<seq<Members>>)
    ensures r == AllChecks(g, app, items)
  {
    var checks: seq<Members>, contexts: set<Value> := [], {};
    for n := 0 to |items|
      invariant HardenChecks(g, app, items[..n]) == Some(checks)
      invariant contexts == Contexts(checks)
    {
      assert items[..n + 1][..n] == items[..n];
      var check := HardenCheck(g, app, items[n]);
      if check.None? {
        ChecksFail(g, app, items, n + 1);
        return None;
      }
      ContextsNext(checks, check.value);
      checks := checks + [check.value];
      contexts := contexts + {Get(check.value, CONTEXT, Null)};
    }
    assert items[..|items|] == items;
    ghost var hardened := checks;
    for n := 0 to |g.required|
      invariant checks == hardened + MissingChecks(g, app, contexts, n)
    {
      if Str(g.required[n]) !in contexts {
        checks := checks + [BaselineCheck(g, app, g.required[n])];
      }
    }
    return Some(checks);
  }

  lemma {:induction false} ChecksFail(g: Gates, app: int, items: seq<Value>, n: nat)
    requires n <= |items| && HardenChecks(g, app, items[..n]).None?
    ensures HardenChecks(g, app, items).None?
    decreases |items|
  {
    if n < |items| {
      assert items[..|items| - 1][..n] == items[..n];
      ChecksFail(g, app, items[..|items| - 1], n);
    } else {
      assert items[..n] == items;
    }
  }

  lemma {:induction false} ContextsNext(checks: seq<Members>, check: Members)
    ensures Contexts(checks + [check]) == Contexts(checks) + {Get(check, CONTEXT, Null)}
  {
    var all := checks + [check];
    assert all[|checks|] == check && forall i :: 0 <= i < |checks| ==> all[i] == checks[i];
    forall c | c in Contexts(checks) + {Get(check, CONTEXT, Null)} ensures c in Contexts(all) {
      if c == Get(check, CONTEXT, Null) {
        assert Get(all[|checks|], CONTEXT, Null) == c;
      } else {
        var i :| 0 <= i < |checks| && Get(checks[i], CONTEXT, Null) == c;
        assert Get(all[i], CONTEXT, Null) == c;
      }
    }
  }

  // ---------------------------------------------------------------- reviews

  const REVIEW_DEFAULTS: Members := map[
    MERGE := Arr([Str(T("squash"))]), DISMISS := Bool(true), OWNERS := Bool(true), LAST_PUSH := Bool(true),
    COUNT := Int(1), THREADS := Bool(true), REVIEWERS := EMPTY]

  /** `max(1, count)`, which raises on what is no number. */
  function AtLeastOne(count: Value): Option<Value> {
    match count
    case Int(n) => Some(Int(if n > 1 then n else 1))
    case Bool(_) => Some(Int(1))
    case Float(_, x) => Some(if x > 1.0 then count else Int(1))
    case _ => None
  }

  /** `harden_pull_request_rule`. */
  function HardenPullRule(existing: Rule): Option<Rule> {
    var parameters := Get(existing, PARAMETERS, NOTHING);
    if !parameters.Obj? then None
    else
      var count :- AtLeastOne(Get(parameters.members, COUNT, Int(1)));
      var hardened := (parameters.members + REVIEW_DEFAULTS)
        [REVIEWERS := Get(parameters.members, REVIEWERS, EMPTY)][COUNT := count];
      Some(existing[TYPE := Str(PULL)][PARAMETERS := Obj(hardened)])
  }

  // ---------------------------------------------------------------- the payload

  predicate OfType(rule: Rule, kind: Text) {
    Get(rule, TYPE, Null) == Str(kind)
  }

  /** The last rule of a type, or a default. */
  function LastOf(rules: seq<Rule>, kind: Text, default: Rule): Rule {
    if rules == [] then default
    else if OfType(rules[|rules| - 1], kind) then rules[|rules| - 1]
    else LastOf(rules[..|rules| - 1], kind, default)
  }

  function CountOf(rules: seq<Rule>, kind: Text): nat {
    if rules == [] then 0
    else CountOf(rules[..|rules| - 1], kind) + if OfType(rules[|rules| - 1], kind) then 1 else 0
  }

  predicate Additional(rule: Rule) {
    Get(rule, TYPE, Null).Str? && Get(rule, TYPE, Null).s !in REPLACED
  }

  /** Rules of other types, in order. */
  function Others(rules: seq<Rule>): seq<Rule> {
    if rules == [] then []
    else
      var front := Others(rules[..|rules| - 1]);
      if Additional(rules[|rules| - 1]) then front + [rules[|rules| - 1]] else front
  }

  function Plain(kind: Text): Rule {
    map[TYPE := Str(kind)]
  }

  /** The rules of `ruleset_payload`. */
  function Payload(g: Gates, app: int, rules: seq<Rule>): Option<seq<Rule>> {
    if app <= 0 || app == GITHUB_ACTIONS || CountOf(rules, CHECKS) > 1 then None
    else
      var pull :- HardenPullRule(LastOf(rules, PULL, map[]));
      var status :- HardenStatusRule(g, app, LastOf(rules, CHECKS, map[]));
      Some([LastOf(rules, DELETION, Plain(DELETION)), LastOf(rules, NO_FORCE, Plain(NO_FORCE)), pull, status]
           + Others(rules))
  }

  /** `ruleset_payload`, with its dictionary of rules by type. */
  method RulesetPayload(g: Gates, app: int, rules: seq<Rule>) returns (r: Option<seq<Rule>>)
    ensures r == Payload(g, app, rules)
  {
    hide HardenPullRule, HardenStatusRule;
    if app <= 0 || app == GITHUB_ACTIONS {
      return None;
    }
    var statusRules: nat := 0;
    var byType: map<Text, Rule>, others: seq<Rule> := map[], [];
    for n := 0 to |rules|
      invariant statusRules == CountOf(rules[..n], CHECKS)
      invariant forall kind, default ::
        (if kind in byType then byType[kind] else default) == LastOf(rules[..n], kind, default)
      invariant others == Others(rules[..n])
    {
      ghost var next := rules[..n + 1];
      assert next[..|next| - 1] == rules[..n] && next[|next| - 1] == rules[n];
      assert Others(next) == if Additional(rules[n]) then Others(rules[..n]) + [rules[n]] else Others(rules[..n]);
      var kind := Get(rules[n], TYPE, Null);
      if OfType(rules[n], CHECKS) {
        statusRules := statusRules + 1;
      }
      if kind.Str? {
        byType := byType[kind.s := rules[n]];
        if kind.s !in REPLACED {
          others := others + [rules[n]];
        }
      }
    }
    assert rules[..|rules|] == rules;
    if statusRules > 1 {
      return None;
    }
    var pull := HardenPullRule(if PULL in byType then byType[PULL] else map[]);
    if pull.None? {
      return None;
    }
    var status := HardenStatusRule(g, app, if CHECKS in byType then byType[CHECKS] else map[]);
    if status.None? {
      return None;
    }
    return Some([
      if DELETION in byType then byType[DELETION] else Plain(DELETION),
      if NO_FORCE in byType then byType[NO_FORCE] else Plain(NO_FORCE), pull.value, status.value] + others);
  }

  // ---------------------------------------------------------------- the verifier

  datatype Blocker = MissingContexts(contexts: set<Text>) | WrongIssuer | NotStrict | NoReviews | NoRuleset

  /** `required_status_check_items`. */
  function CheckItems(rule: Value): seq<Value> {
    if rule.Obj? && OfType(rule.members, CHECKS) then
      var parameters := Get(rule.members, PARAMETERS, Null);
      if parameters.Obj? && Get(parameters.members, CHECKS, Null).Arr? then Get(parameters.members, CHECKS, Null).items
      else []
    else []
  }

  /** `status_check_context`, for contexts that are strings. */
  function CheckContext(item: Value): Option<Text> {
    if !item.Obj? then None
    else
      var context := Get(item.members, CONTEXT, Null);
      var named := if Truthy(context) then context else Get(item.members, NAME, Null);
      if named.Str? && named.s != [] then Some(named.s) else None
  }

  function RequiredContexts(rules: seq<Value>): set<Text> {
    set i, j | 0 <= i < |rules| && 0 <= j < |CheckItems(rules[i])| && CheckContext(CheckItems(rules[i])[j]).Some?
      :: CheckContext(CheckItems(rules[i])[j]).value
  }

  predicate HasIssuer(g: Gates, app: int, rules: seq<Value>) {
    exists i, j :: 0 <= i < |rules| && 0 <= j < |CheckItems(rules[i])|
      && var item := CheckItems(rules[i])[j];
         item.Obj? && CheckContext(item) == Some(g.promotion) && PyEq(Get(item.members, ISSUER, Null), Int(app))
  }

  predicate IsStrict(rule: Value) {
    && rule.Obj? && OfType(rule.members, CHECKS)
    && var parameters := Get(rule.members, PARAMETERS, Null);
       parameters.Obj? && Get(parameters.members, STRICT, Null) == Bool(true)
  }

  /** The parameters of the first pull-request rule that has any. */
  function ReviewParameters(rules: seq<Value>): Option<Members> {
    if rules == [] then None
    else if rules[0].Obj? && OfType(rules[0].members, PULL) && Get(rules[0].members, PARAMETERS, Null).Obj?
    then Some(Get(rules[0].members, PARAMETERS, Null).members)
    else ReviewParameters(rules[1..])
  }

  predicate CountReviews(count: Value) {
    (count.Int? && count.n >= 1) || count == Bool(true)
  }

  predicate HasReviews(rules: seq<Value>) {
    var parameters := ReviewParameters(rules);
    && parameters.Some?
    && CountReviews(Get(parameters.value, COUNT, Null))
    && forall flag :: flag in {THREADS, DISMISS, OWNERS, LAST_PUSH} ==> Get(parameters.value, flag, Null) == Bool(true)
  }

  function RequiredSet(g: Gates): set<Text> {
    set i | 0 <= i < |g.required| :: g.required[i]
  }

  /** What the verifier asks of a ruleset's rules. */
  predicate Unblocked(g: Gates, app: int, rules: seq<Value>) {
    && RequiredSet(g) <= RequiredContexts(rules)
    && HasIssuer(g, app, rules)
    && (exists i :: 0 <= i < |rules| && IsStrict(rules[i]))
    && HasReviews(rules)
  }

  /** `ruleset_verification_blockers`. */
  method Blockers(g: Gates, app: int, ruleset: Option<seq<Value>>) returns (blockers: seq<Blocker>)
    ensures ruleset.None? ==> blockers == [NoRuleset]
    ensures ruleset.Some? ==>
      && (blockers == [] <==> Unblocked(g, app, ruleset.value))
      && (MissingContexts(RequiredSet(g) - RequiredContexts(ruleset.value)) in blockers
        <==> !(RequiredSet(g) <= RequiredContexts(ruleset.value)))
      && (WrongIssuer in blockers <==> !HasIssuer(g, app, ruleset.value))
      && (NotStrict in blockers <==> !exists i :: 0 <= i < |ruleset.value| && IsStrict(ruleset.value[i]))
      && (NoReviews in blockers <==> !HasReviews(ruleset.value))
  {
    hide HasIssuer, HasReviews, IsStrict, RequiredContexts;
    if ruleset.None? {
      return [NoRuleset];
    }
    var rules := ruleset.value;
    var missing := RequiredSet(g) - RequiredContexts(rules);
    assert missing == {} <==> forall c :: c in RequiredSet(g) ==> c in RequiredContexts(rules) by {
      if missing == {} {
        forall c | c in RequiredSet(g) ensures c in RequiredContexts(rules) {
          assert c !in missing;
        }
      }
    }
    blockers := [];
    if missing != {} {
      blockers := blockers + [MissingContexts(missing)];
    }
    if !HasIssuer(g, app, rules) {
      blockers := blockers + [WrongIssuer];
    }
    if !exists i :: 0 <= i < |rules| && IsStrict(rules[i]) {
      blockers := blockers + [NotStrict];
    }
    if !HasReviews(rules) {
      blockers := blockers + [NoReviews];
    }
  }
}
