/**
 Contracts and their transitions (scripts/poc_contract.py): which document may follow which, and what every
 history that starts from an initial registry contract keeps.
 */
module Contracts {
  import opened ByteStrings
  import opened Options
  import opened Texts
  import opened Json
  import opened JsonText
  import opened CanonicalJson
  import opened Networks

  const PHASE: Text := T("phase")
  const REGISTRY_PHASE: Value := Str(T("registry"))
  const WORKLOAD_PHASE: Value := Str(T("workload"))
  const WORKLOAD: Text := T("workload")
  const RELEASE: Text := T("release")
  const REGISTRY_DIGEST: Text := T("registry_contract_digest")
  const SECRET_LIFECYCLE: Text := T("secret_lifecycle")
  const REFERENCES: Text := T("references")
  const OWNER: Text := T("owner")
  const GENERATED: Value := Str(T("service-generated"))
  const RUNTIME: Text := T("runtime")
  const PROXIES: Text := T("trusted_proxy_cidrs")
  const OWNERSHIP: seq<Text> :=
    [T("account_id"), T("region"), T("environment"), T("backend"), T("registries"), T("mail_identity")]

  /** The JSON Schema and the other semantic checks of one document, the hash, and the notation of networks. */
  datatype Rules = Rules(document: Value -> bool, hash: Text -> Text, notation: Notation)

  function At(v: Value, key: Text): Value {
    if v.Obj? && key in v.members then v.members[key] else Null
  }

  function Phase(c: Value): Value {
    At(c, PHASE)
  }

  function ReleaseDigest(c: Value): Value {
    At(At(At(c, WORKLOAD), RELEASE), REGISTRY_DIGEST)
  }

  function References(c: Value): Members {
    var references := At(At(At(c, WORKLOAD), SECRET_LIFECYCLE), REFERENCES);
    if references.Obj? then references.members else map[]
  }

  /** The texts of a list of strings. */
  function TextList(v: Value): seq<Text> {
    if v.Arr? then seq(|v.items|, i requires 0 <= i < |v.items| => if v.items[i].Str? then v.items[i].s else []) else []
  }

  function Proxies(c: Value): seq<Text> {
    TextList(At(At(At(c, WORKLOAD), RUNTIME), PROXIES))
  }

  /** `_digest`. */
  function Digest(rules: Rules, c: Value): Text {
    rules.hash(Print(c))
  }

  /** `_validate_document`. */
  predicate DocumentOk(rules: Rules, c: Value) {
    && rules.document(c)
    && (Phase(c) == REGISTRY_PHASE || Phase(c) == WORKLOAD_PHASE)
    && (Phase(c) == WORKLOAD_PHASE ==> ListOk(rules.notation, Proxies(c)))
  }

  predicate Generated(secret: Value) {
    At(secret, OWNER) == GENERATED
  }

  /** Generated secrets of `before` are unchanged in `after`. */
  predicate SecretsKept(before: Members, after: Members) {
    forall p :: p in before && Generated(before[p]) ==> p in after && PyEq(before[p], after[p])
  }

  predicate SameOwner(a: Value, b: Value) {
    forall i :: 0 <= i < |OWNERSHIP| ==> PyEq(At(a, OWNERSHIP[i]), At(b, OWNERSHIP[i]))
  }

  /** `_validate_transition`. */
  predicate TransitionOk(rules: Rules, previous: Value, c: Value) {
    && (Phase(previous) == WORKLOAD_PHASE ==> Phase(c) == WORKLOAD_PHASE)
    && SameOwner(previous, c)
    && (Phase(previous) == REGISTRY_PHASE && Phase(c) == WORKLOAD_PHASE ==>
         ReleaseDigest(c) == Str(Digest(rules, previous)))
    && (Phase(previous) == WORKLOAD_PHASE ==> SecretsKept(References(previous), References(c)))
  }

  /** `validate` accepts. */
  predicate ContractOk(rules: Rules, c: Value, previous: Option<Value>, initial: bool) {
    && DocumentOk(rules, c)
    && match previous
       case None => initial && Phase(c) == REGISTRY_PHASE
       case Some(p) => !initial && DocumentOk(rules, p) && TransitionOk(rules, p, c)
  }

  method CheckOwner(previous: Value, c: Value) returns (ok: bool)
    ensures ok <==> SameOwner(previous, c)
  {
    for i := 0 to |OWNERSHIP|
      invariant forall j :: 0 <= j < i ==> PyEq(At(previous, OWNERSHIP[j]), At(c, OWNERSHIP[j]))
    {
      if !PyEq(At(previous, OWNERSHIP[i]), At(c, OWNERSHIP[i])) {
        return false;
      }
    }
    return true;
  }

  method CheckSecrets(before: Members, after: Members) returns (ok: bool)
    ensures ok <==> SecretsKept(before, after)
  {
    hide PyEq, Generated;
    var todo := before.Keys;
    while todo != {}
      invariant todo <= before.Keys
      invariant forall p :: p in before.Keys - todo && Generated(before[p]) ==> p in after && PyEq(before[p], after[p])
      decreases |todo|
    {
      var p :| p in todo;
      if Generated(before[p]) && (p !in after || !PyEq(before[p], after[p])) {
        return false;
      }
      todo := todo - {p};
    }
    return true;
  }

  method CheckDocument(rules: Rules, c: Value) returns (ok: bool)
    ensures ok <==> DocumentOk(rules, c)
  {
    if !rules.document(c) || !(Phase(c) == REGISTRY_PHASE || Phase(c) == WORKLOAD_PHASE) {
      return false;
    }
    if Phase(c) != WORKLOAD_PHASE {
      PhasesDiffer();
      return true;
    }
    var networks := TrustedProxies(rules.notation, Proxies(c));
    return networks.Some?;
  }

  lemma {:induction false} PhasesDiffer()
    ensures REGISTRY_PHASE != WORKLOAD_PHASE && GENERATED != Null
  {
    assert REGISTRY_PHASE.s[0] != WORKLOAD_PHASE.s[0];
  }

  /** `validate`: the canonical digest of an acceptable contract. */
  method ValidateContract(rules: Rules, c: Value, previous: Option<Value>, initial: bool) returns (r: Option<Text>)
    ensures r == if ContractOk(rules, c, previous, initial) then Some(Digest(rules, c)) else None
  {
    hide DocumentOk, SameOwner, SecretsKept, Digest;
    var good := CheckDocument(rules, c);
    if !good {
      return None;
    }
    match previous
    case None =>
      return if initial && Phase(c) == REGISTRY_PHASE then Some(Digest(rules, c)) else None;
    case Some(p) =>
      if initial {
        return None;
      }
      var goodBefore := CheckDocument(rules, p);
      if !goodBefore || (Phase(p) == WORKLOAD_PHASE && Phase(c) != WORKLOAD_PHASE) {
        return None;
      }
      var sameOwner := CheckOwner(p, c);
      if !sameOwner {
        return None;
      }
      if Phase(p) == REGISTRY_PHASE && Phase(c) == WORKLOAD_PHASE && ReleaseDigest(c) != Str(Digest(rules, p)) {
        return None;
      }
      if Phase(p) == WORKLOAD_PHASE {
        var kept := CheckSecrets(References(p), References(c));
        if !kept {
          return None;
        }
      }
      return Some(Digest(rules, c));
  }

  // ---------------------------------------------------------------- histories

  /** An initial registry contract, and each next one validated against the one before. */
  predicate History(rules: Rules, contracts: seq<Value>) {
    && contracts != []
    && ContractOk(rules, contracts[0], None, true)
    && forall i :: 0 <= i < |contracts| - 1 ==> ContractOk(rules, contracts[i + 1], Some(contracts[i]), false)
  }

  lemma {:induction false} HistoryStep(rules: Rules, contracts: seq<Value>, i: nat)
    requires History(rules, contracts) && i + 1 < |contracts|
    ensures TransitionOk(rules, contracts[i], contracts[i + 1])
    ensures DocumentOk(rules, contracts[i]) && DocumentOk(rules, contracts[i + 1])
  {
  }

  lemma {:induction false} HistoryPrefix(rules: Rules, contracts: seq<Value>, n: nat)
    requires History(rules, contracts) && 0 < n <= |contracts|
    ensures History(rules, contracts[..n])
  {
  }

  /** Contracts numbered from `k` on are workloads, those before it are registries. */
  predicate PhasesSplit(contracts: seq<Value>, k: nat) {
    && 1 <= k <= |contracts|
    && (forall i :: 0 <= i < k ==> Phase(contracts[i]) == REGISTRY_PHASE)
    && (forall i :: k <= i < |contracts| ==> Phase(contracts[i]) == WORKLOAD_PHASE)
  }

  /** The phases of a history are registry, ..., registry, workload, ..., workload. */
  lemma {:induction false} PhasesInOrder(rules: Rules, contracts: seq<Value>) returns (k: nat)
    requires History(rules, contracts)
    ensures PhasesSplit(contracts, k)
  {
    hide DocumentOk, TransitionOk, Phase;
    var n := |contracts| - 1;
    if n == 0 {
      k := 1;
    } else {
      HistoryPrefix(rules, contracts, n);
      k := PhasesInOrder(rules, contracts[..n]);
      HistoryStep(rules, contracts, n - 1);
      NextPhase(rules, contracts[n - 1], contracts[n]);
      assert forall i :: 0 <= i < n ==> contracts[..n][i] == contracts[i];
      PhasesDiffer();
      if k == n && Phase(contracts[n]) == REGISTRY_PHASE {
        k := n + 1;
      }
    }
  }

  lemma {:induction false} NextPhase(rules: Rules, previous: Value, c: Value)
    requires TransitionOk(rules, previous, c) && DocumentOk(rules, c)
    ensures Phase(c) == REGISTRY_PHASE || Phase(c) == WORKLOAD_PHASE
    ensures Phase(previous) == WORKLOAD_PHASE ==> Phase(c) == WORKLOAD_PHASE
  {
  }

  /** Account, region, environment, backend, registries and mail identity never change. */
  lemma {:induction false} OwnershipConstant(rules: Rules, contracts: seq<Value>, i: nat, j: nat)
    requires History(rules, contracts) && i <= j < |contracts|
    ensures SameOwner(contracts[i], contracts[j])
    decreases j - i
  {
    hide DocumentOk, ContractOk, Phase, SecretsKept;
    if i < j {
      OwnershipConstant(rules, contracts, i, j - 1);
      HistoryStep(rules, contracts, j - 1);
      SameOwnerTransitive(contracts[i], contracts[j - 1], contracts[j]);
    }
  }

  lemma {:induction false} SameOwnerTransitive(a: Value, b: Value, c: Value)
    requires SameOwner(a, b) && SameOwner(b, c)
    ensures SameOwner(a, c)
  {
  }

  /** The first workload is released against the last registry contract, and against no other document. */
  lemma {:induction false} FirstWorkloadBound(
    rules: Rules, scan: FloatScan, contracts: seq<Value>, k: nat, other: Value)
    requires History(rules, contracts) && PhasesSplit(contracts, k) && k < |contracts|
    requires FloatsOk(scan, other) && Whole(other)
    requires FloatsOk(scan, contracts[k - 1]) && Whole(contracts[k - 1])
    ensures ReleaseDigest(contracts[k]) == Str(Digest(rules, other)) <==>
      other == contracts[k - 1] || Collide(rules.hash, Print(other), Print(contracts[k - 1]))
  {
    hide Print, FloatsOk, Whole, ListOk, SameOwner, ReleaseDigest;
    HistoryStep(rules, contracts, k - 1);
    PrintInjective(scan, other, contracts[k - 1]);
  }

  lemma {:induction false} PyEqAt(a: Value, b: Value, key: Text)
    requires PyEq(a, b) && a.Obj?
    ensures b.Obj? && PyEq(At(a, key), At(b, key))
  {
    assert b.Obj?;
    SameMembersPointwise(a.members, b.members);
  }

  lemma {:induction false} GeneratedStays(a: Value, b: Value)
    requires PyEq(a, b) && Generated(a)
    ensures Generated(b)
  {
    PhasesDiffer();
    PyEqAt(a, b, OWNER);
  }

  /** A generated secret's reference, once it appears, is frozen. */
  lemma {:induction false} SecretsFrozen(rules: Rules, contracts: seq<Value>, i: nat, j: nat, purpose: Text)
    requires History(rules, contracts) && i <= j < |contracts| && Phase(contracts[i]) == WORKLOAD_PHASE
    requires purpose in References(contracts[i]) && Generated(References(contracts[i])[purpose])
    ensures purpose in References(contracts[j])
    ensures PyEq(References(contracts[i])[purpose], References(contracts[j])[purpose])
    ensures Phase(contracts[j]) == WORKLOAD_PHASE
    decreases j - i
  {
    hide DocumentOk, ContractOk, SameOwner, Generated, References, Phase;
    if i < j {
      SecretsFrozen(rules, contracts, i, j - 1, purpose);
      GeneratedStays(References(contracts[i])[purpose], References(contracts[j - 1])[purpose]);
      HistoryStep(rules, contracts, j - 1);
    }
  }

  /** In every workload of a history an address matches at most one trusted proxy network. */
  lemma {:induction false} ProxiesDisjoint(rules: Rules, contracts: seq<Value>, k: nat, a: Address, i: nat, j: nat)
    requires History(rules, contracts) && k < |contracts| && Phase(contracts[k]) == WORKLOAD_PHASE
    requires i < |Proxies(contracts[k])| && j < |Proxies(contracts[k])|
    requires ListOk(rules.notation, Proxies(contracts[k])) ==>
      Contains(NetworksOf(rules.notation, Proxies(contracts[k]))[i], a)
      && Contains(NetworksOf(rules.notation, Proxies(contracts[k]))[j], a)
    ensures ListOk(rules.notation, Proxies(contracts[k])) && i == j
  {
    hide ListOk, Proxies, Contains;
    assert DocumentOk(rules, contracts[k]) by {
      if k > 0 {
        HistoryStep(rules, contracts, k - 1);
      }
    }
    MatchesOne(rules.notation, Proxies(contracts[k]), a, i, j);
  }

  // ---------------------------------------------------------------- the rules in the documents' own names

  /** What a path of member names leads to. */
  function Item(v: Value, path: seq<string>): Value {
    if path == [] then v
    else if v.Obj? && T(path[0]) in v.members then Item(v.members[T(path[0])], path[1..])
    else Null
  }

  predicate IsRegistry(c: Value) {
    Item(c, ["phase"]) == Str(T("registry"))
  }

  predicate IsWorkload(c: Value) {
    Item(c, ["phase"]) == Str(T("workload"))
  }

  ghost predicate Sound(rules: Rules, c: Value) {
    && rules.document(c)
    && (IsRegistry(c)
        || (IsWorkload(c)
            && ProxyList(rules.notation, TextList(Item(c, ["workload", "runtime", "trusted_proxy_cidrs"])))))
  }

  predicate SameAt(a: Value, b: Value, name: string) {
    PyEq(Item(a, [name]), Item(b, [name]))
  }

  /** The owner of the secret under `p`, as the document says. */
  predicate ServiceGenerated(secrets: Value, p: Text) {
    && secrets.Obj? && p in secrets.members
    && Item(secrets.members[p], ["owner"]) == Str(T("service-generated"))
  }

  predicate KeepsSecrets(before: Value, after: Value) {
    forall p :: before.Obj? && p in before.members && ServiceGenerated(before, p) ==>
      after.Obj? && p in after.members && PyEq(before.members[p], after.members[p])
  }

  /** A contract that may follow another: same owner, never back to registry, bound to it, secrets frozen. */
  predicate MayFollow(rules: Rules, previous: Value, c: Value) {
    && SameAt(previous, c, "account_id") && SameAt(previous, c, "region") && SameAt(previous, c, "environment")
    && SameAt(previous, c, "backend") && SameAt(previous, c, "registries") && SameAt(previous, c, "mail_identity")
    && (IsRegistry(previous) && IsWorkload(c) ==>
      Item(c, ["workload", "release", "registry_contract_digest"]) == Str(rules.hash(Print(previous))))
    && (IsWorkload(previous) ==> IsWorkload(c))
    && (IsWorkload(previous) ==>
      KeepsSecrets(Item(previous, ["workload", "secret_lifecycle", "references"]),
                   Item(c, ["workload", "secret_lifecycle", "references"])))
  }

  lemma {:induction false} ItemIsAt(v: Value, a: string)
    ensures Item(v, [a]) == At(v, T(a))
  {
    assert [a][1..] == [];
  }

  lemma {:induction false} ItemIsAts(v: Value, a: string, b: string, c: string)
    ensures Item(v, [a, b, c]) == At(At(At(v, T(a)), T(b)), T(c))
  {
    assert [a, b, c][1..] == [b, c] && [b, c][1..] == [c];
    ItemStep(v, [a, b, c]);
    ItemStep(At(v, T(a)), [b, c]);
    ItemIsAt(At(At(v, T(a)), T(b)), c);
  }

  lemma {:induction false} ItemStep(v: Value, path: seq<string>)
    requires path != []
    ensures Item(v, path) == Item(At(v, T(path[0])), path[1..])
  {
  }

  lemma {:induction false} PhaseExactly(c: Value)
    ensures IsRegistry(c) <==> Phase(c) == REGISTRY_PHASE
    ensures IsWorkload(c) <==> Phase(c) == WORKLOAD_PHASE
  {
    ItemIsAt(c, "phase");
  }

  lemma {:induction false} SoundExactly(rules: Rules, c: Value)
    ensures Sound(rules, c) <==> DocumentOk(rules, c)
  {
    PhaseExactly(c);
    PhasesDiffer();
    ItemIsAts(c, "workload", "runtime", "trusted_proxy_cidrs");
    AcceptedExactly(rules.notation, Proxies(c));
    hide ListOk, ProxyList, TextList, Item, At;
  }

  lemma {:induction false} OwnerExactly(a: Value, b: Value)
    ensures SameOwner(a, b) <==>
      && SameAt(a, b, "account_id") && SameAt(a, b, "region") && SameAt(a, b, "environment")
      && SameAt(a, b, "backend") && SameAt(a, b, "registries") && SameAt(a, b, "mail_identity")
  {
    var names := ["account_id", "region", "environment", "backend", "registries", "mail_identity"];
    forall i | 0 <= i < 6 ensures SameAt(a, b, names[i]) <==> PyEq(At(a, OWNERSHIP[i]), At(b, OWNERSHIP[i])) {
      ItemIsAt(a, names[i]);
      ItemIsAt(b, names[i]);
      assert OWNERSHIP[i] == T(names[i]);
    }
    hide PyEq, At, SameAt;
    assert |OWNERSHIP| == 6;
    assert names[0] == "account_id" && names[1] == "region" && names[2] == "environment";
    assert names[3] == "backend" && names[4] == "registries" && names[5] == "mail_identity";
  }

  lemma {:induction false} KeepsExactly(before: Value, after: Value)
    ensures KeepsSecrets(before, after) <==>
      SecretsKept(if before.Obj? then before.members else map[], if after.Obj? then after.members else map[])
  {
    hide PyEq, At, Item;
    if before.Obj? {
      forall p | p in before.members ensures ServiceGenerated(before, p) <==> Generated(before.members[p]) {
        ItemIsAt(before.members[p], "owner");
      }
    }
  }

  /** Exactly which contracts are accepted, in the names the documents use. */
  lemma {:induction false} ContractExactly(rules: Rules, c: Value, previous: Option<Value>, initial: bool)
    ensures ContractOk(rules, c, previous, initial) <==>
      && Sound(rules, c)
      && (initial <==> previous.None?)
      && (previous.None? ==> IsRegistry(c))
      && (previous.Some? ==> Sound(rules, previous.value) && MayFollow(rules, previous.value, c))
  {
    hide Sound, DocumentOk, TransitionOk, MayFollow;
    SoundExactly(rules, c);
    PhaseExactly(c);
    if previous.Some? {
      SoundExactly(rules, previous.value);
      if DocumentOk(rules, c) && DocumentOk(rules, previous.value) {
        FollowExactly(rules, previous.value, c);
      }
    }
  }

  lemma {:induction false} FollowExactly(rules: Rules, previous: Value, c: Value)
    requires DocumentOk(rules, previous) && DocumentOk(rules, c)
    ensures MayFollow(rules, previous, c) <==> TransitionOk(rules, previous, c)
  {
    PhaseExactly(c);
    PhaseExactly(previous);
    PhasesDiffer();
    OwnerExactly(previous, c);
    ItemIsAts(c, "workload", "release", "registry_contract_digest");
    ItemIsAts(c, "workload", "secret_lifecycle", "references");
    ItemIsAts(previous, "workload", "secret_lifecycle", "references");
    KeepsExactly(Item(previous, ["workload", "secret_lifecycle", "references"]),
                 Item(c, ["workload", "secret_lifecycle", "references"]));
    hide ListOk, Item, At, SameOwner, SameAt, SecretsKept, KeepsSecrets;
  }

  /** A history is any series of sound contracts that begins with a registry and of which each may follow the last. */
  lemma {:induction false} HistoryExactly(rules: Rules, contracts: seq<Value>)
    ensures History(rules, contracts) <==>
      && contracts != [] && IsRegistry(contracts[0])
      && (forall i :: 0 <= i < |contracts| ==> Sound(rules, contracts[i]))
      && (forall i :: 0 <= i < |contracts| - 1 ==> MayFollow(rules, contracts[i], contracts[i + 1]))
  {
    hide ContractOk, Sound, IsRegistry, MayFollow;
    if contracts != [] {
      ContractExactly(rules, contracts[0], None, true);
      forall i | 0 <= i < |contracts| - 1
        ensures ContractOk(rules, contracts[i + 1], Some(contracts[i]), false) <==>
          && Sound(rules, contracts[i + 1]) && Sound(rules, contracts[i])
          && MayFollow(rules, contracts[i], contracts[i + 1])
      {
        ContractExactly(rules, contracts[i + 1], Some(contracts[i]), false);
      }
      if History(rules, contracts) {
        forall i | 0 <= i < |contracts| ensures Sound(rules, contracts[i]) {
          assert i > 0 ==> ContractOk(rules, contracts[i - 1 + 1], Some(contracts[i - 1]), false);
        }
      }
    }
  }
}
