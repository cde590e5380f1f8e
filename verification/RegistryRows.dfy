/**
 Resource rows of the registry graph and the normalisation of their provider-checked inputs
 (scripts/poc_registry_plan.py and scripts/poc_mail_prerequisite.py). The graph and every cloud
 constant is a parameter, gathered in `Site`.
 */
module RegistryRows {
  import opened Options
  import opened Texts
  import opened Json
  import opened JsonText
  import opened CanonicalJson

  type Urn = string

  datatype Kind =
    | Stack
    | Environment
    | Service
    | Registry
    | Provider(package: string)
    | Ecr
    | Ses
    | Dns
    | Other(package: string, name: string)

  const AWS_PROVIDER := Provider("aws")

  /** A `<provider urn>::<provider id>` link, or none. */
  datatype Reference = NoProvider | ProvidedBy(urn: Urn, id: Text)

  /** `flagged`: some lifecycle field that must be absent or empty (external, taint, aliases, ...) is not. */
  datatype Row = Row(
    urn: Urn,
    kind: Kind,
    custom: bool,
    parent: Urn,
    provider: Reference,
    id: Option<Text>,
    protect: bool,
    flagged: bool,
    inputs: Members,
    outputs: Members,
    dependencies: seq<Urn>,
    propertyDependencies: map<Text, seq<Urn>>,
    secretOutputs: seq<Text>)

  type Rows = map<Urn, Row>

  /** `index` is the number a DNS record's URN ends in. */
  datatype Node = Node(kind: Kind, parent: Urn, custom: bool, protect: bool, name: string, index: nat)

  type Graph = map<Urn, Node>

  datatype Repository = Repository(name: Text, outputs: Members)

  datatype Site = Site(
    scan: FloatScan,
    graph: Graph,
    provider: Urn,
    baseline: set<Urn>,
    legacyRows: seq<Row>,
    legacyId: Text,
    region: Value,
    account: Value,
    version: Value,
    tags: Value,
    repositories: map<Urn, Repository>,
    components: map<Kind, Members>,
    domain: Text,
    zone: Text,
    identityArn: Value,
    identityOutputs: Members,
    recordOutputs: Members)

  /** What the installed graph guarantees: one AWS provider, among the bootstrap rows, which are not all there is. */
  predicate WellFormed(site: Site) {
    && site.provider in site.graph
    && site.graph[site.provider].kind == AWS_PROVIDER
    && (forall u :: u in site.graph && site.graph[u].kind == AWS_PROVIDER ==> u == site.provider)
    && site.provider in site.baseline && site.baseline <= site.graph.Keys
    && exists u :: u in site.graph && u !in site.baseline
  }

  /** The engine's placeholder for a value it does not know yet. */
  const UNKNOWN: Text := T("04da6b54-80e4-46f7-96ec-b56ff0331ba9")
  const UNKNOWN_VALUE: Value := Str(UNKNOWN)
  const SECRET: Value := Str(T("[secret]"))
  const EMPTY: Value := Arr([])

  const DEFAULTS: Text := T("__defaults")
  const INTERNAL: Text := T("__internal")
  const REGION: Text := T("region")
  const TAGS: Text := T("tags")
  const TAGS_ALL: Text := T("tagsAll")
  const NAME: Text := T("name")
  const VERSION: Text := T("version")
  const ACCOUNTS: Text := T("allowedAccountIds")
  const SKIP_CREDENTIALS: Text := T("skipCredentialsValidation")
  const SKIP_REGION: Text := T("skipRegionValidation")
  const SKIP_ACCOUNT: Text := T("skipRequestingAccountId")
  const SCANNING: Text := T("imageScanningConfiguration")
  const SCAN_ON_PUSH: Text := T("scanOnPush")
  const DKIM: Text := T("dkimSigningAttributes")
  const NEXT_KEY: Text := T("nextSigningKeyLength")
  const RSA_2048: Value := Str(T("RSA_2048_BIT"))
  const TOKENS: Text := T("tokens")
  const ARN: Text := T("arn")
  const ID: Text := T("id")
  const FALSE_TEXT: Value := Str(T("false"))

  /** `row.get("id", "")`. */
  function IdOf(row: Row): Text {
    match row.id
    case None => []
    case Some(id) => id
  }

  /** The coordinates that say whose a resource is. */
  datatype Owner = Owner(
    urn: Urn, kind: Kind, custom: bool, parent: Urn, provider: Reference, id: Text, protect: bool)

  function Ownership(row: Row): Owner {
    Owner(row.urn, row.kind, row.custom, row.parent, row.provider, IdOf(row), row.protect)
  }

  // ---------------------------------------------------------------- input normalisation

  /** Drops the provider-level defaults, which must have the site's values. */
  function StripDefaults(site: Site, m: Members): Option<Members> {
    var a :- Pop(m, REGION, site.region);
    Pop(a, TAGS_ALL, site.tags)
  }

  /** `m` with the block at `key` rid of its own defaults. */
  function StripBlock(m: Members, key: Text): Option<Members>
    requires key in m
  {
    var block :- AsDict(m[key]);
    var stripped :- Pop(block, DEFAULTS, EMPTY);
    Some(m[key := Obj(stripped)])
  }

  /** `_ecr_checked_inputs`: the source inputs under the defaults the provider's check adds. */
  function EcrCheckedInputs(site: Site, inputs: Members): Option<Members> {
    var a :- Pop(inputs, DEFAULTS, EMPTY);
    var b :- StripDefaults(site, a);
    if SCANNING in b then StripBlock(b, SCANNING) else Some(b)
  }

  /** `checked_inputs` of the mail prerequisite. */
  function MailCheckedInputs(site: Site, kind: Kind, inputs: Members): Option<Members> {
    var a :- Pop(inputs, DEFAULTS, EMPTY);
    if kind != Ses then Some(a)
    else
      var b :- StripDefaults(site, a);
      if DKIM in b then StripBlock(b, DKIM) else None
  }

  function SemanticInputs(site: Site, kind: Kind, inputs: Members): Option<Members> {
    match kind
    case Ecr => EcrCheckedInputs(site, inputs)
    case Ses => MailCheckedInputs(site, kind, inputs)
    case Dns => MailCheckedInputs(site, kind, inputs)
    case _ => Some(inputs)
  }

  lemma {:induction false} KeysDiffer()
    ensures DEFAULTS != REGION && DEFAULTS != TAGS_ALL && DEFAULTS != SCANNING && DEFAULTS != DKIM
    ensures REGION != TAGS_ALL && REGION != SCANNING && REGION != DKIM
    ensures TAGS_ALL != SCANNING && TAGS_ALL != DKIM && SCANNING != DKIM
    ensures DEFAULTS != SCAN_ON_PUSH && DEFAULTS != NEXT_KEY
  {
    assert DEFAULTS[0] != SCAN_ON_PUSH[0];
  }

  /** Normalising twice is normalising once: nothing it strips comes back, nothing else is stripped. */
  lemma {:induction false} SemanticInputsIdempotent(site: Site, kind: Kind, inputs: Members)
    requires SemanticInputs(site, kind, inputs).Some?
    ensures SemanticInputs(site, kind, SemanticInputs(site, kind, inputs).value) == SemanticInputs(site, kind, inputs)
  {
    KeysDiffer();
    var m := SemanticInputs(site, kind, inputs).value;
    match kind
    case Ecr =>
      if SCANNING in m {
        assert m[SCANNING := m[SCANNING]] == m;
      }
    case Ses =>
      assert m[DKIM := m[DKIM]] == m;
    case _ =>
  }

  // ---------------------------------------------------------------- mail rows

  predicate TokenText(t: Text) {
    |t| == 32 && forall i :: 0 <= i < 32 ==> 0x61 <= t[i] <= 0x7A || 0x30 <= t[i] <= 0x39
  }

  /** Exactly three distinct tokens, sorted. */
  function Tokens(v: Value): (r: Option<seq<Text>>)
    ensures r.Some? ==> |r.value| == 3 && Ascending(r.value) && forall t :: t in r.value ==> TokenText(t)
  {
    if !v.Arr? || |v.items| != 3 then None
    else
      var a, b, c := v.items[0], v.items[1], v.items[2];
      if !(a.Str? && b.Str? && c.Str?) || !(TokenText(a.s) && TokenText(b.s) && TokenText(c.s)) then None
      else if a.s == b.s || a.s == c.s || b.s == c.s then None
      else Some(Sorted({a.s, b.s, c.s}))
  }

  /** The inputs of a DKIM record; the name and value are unknown until the identity has tokens. */
  function RecordInputs(site: Site, token: Option<Text>): Members {
    var base := map[
      T("zoneId") := Str(site.zone), T("type") := Str(T("CNAME")), T("ttl") := Int(300),
      T("allowOverwrite") := Bool(false)];
    match token
    case None => base[NAME := UNKNOWN_VALUE][T("records") := UNKNOWN_VALUE]
    case Some(t) =>
      base[NAME := Str(t + T("._domainkey.") + site.domain)]
          [T("records") := Arr([Str(t + T(".dkim.amazonses.com"))])]
  }

  function IdentityInputs(site: Site): Members {
    map[T("emailIdentity") := Str(site.domain), DKIM := Obj(map[NEXT_KEY := RSA_2048]), TAGS := site.tags]
  }

  /** `s.split(".")[0]`. */
  function FirstLabel(s: Text): Text {
    if s == [] || s[0] == 0x2E then [] else [s[0]] + FirstLabel(s[1..])
  }

  /** Each output is an expected one with the expected value, or not known yet on a new row. */
  predicate Computed(outputs: Members, expected: Members, new_: bool) {
    forall k :: k in outputs ==>
      k in expected && (PyEq(outputs[k], expected[k]) || (new_ && outputs[k] == UNKNOWN_VALUE))
  }

  predicate FreshId(row: Row) {
    IdOf(row) == [] || IdOf(row) == UNKNOWN
  }

  predicate RecordOk(site: Site, row: Row, inputs: Members, new_: bool) {
    && inputs.Keys == RecordInputs(site, None).Keys
    && inputs[NAME].Str?
    && var name := inputs[NAME].s;
       var token := if name == UNKNOWN then None else Some(FirstLabel(name));
       var id := site.zone + T("_") + name + T("_CNAME");
    && (token.Some? ==> TokenText(token.value))
    && SameMembers(inputs, RecordInputs(site, token))
    && Computed(row.outputs, inputs + site.recordOutputs + map[T("fqdn") := inputs[NAME], ID := Str(id)], new_)
    && (if new_ then FreshId(row) else row.id == Some(id))
  }

  /** The unused private-key output: empty, hidden in a preview, or an opaque secret envelope. */
  predicate UnusedPrivateOutput(v: Value, preview: bool) {
    || v == Null || v == Str([]) || (preview && v == SECRET)
    || (v.Obj? && Envelope(v.members)
        && ((v.members.Keys == {MARKER, T("value")} && v.members[T("value")] == Str([]))
            || (v.members.Keys == {MARKER, T("ciphertext")}
                && v.members[T("ciphertext")].Str? && v.members[T("ciphertext")].s != [])))
  }

  const MARKER: Text := T("4dabf18193072939515e22adb298388d")
  const SENTINEL: Value := Str(T("1b47061264138c4ac30d75fd1eb44270"))

  predicate Envelope(m: Members) {
    MARKER in m && m[MARKER] == SENTINEL
  }

  function Get(m: Members, key: Text, default: Value): Value {
    if key in m then m[key] else default
  }

  const STATUSES: set<Value> :=
    {Str(T("PENDING")), Str(T("SUCCESS")), Str(T("FAILED")), Str(T("TEMPORARY_FAILURE")), Str(T("NOT_STARTED"))}

  const DKIM_FIELDS: set<Text> := {
    NEXT_KEY, T("currentSigningKeyLength"), T("signingAttributesOrigin"), STATUS, TOKENS,
    T("lastKeyGenerationTimestamp"), PRIVATE_KEY, T("domainSigningSelector")}

  const STATUS: Text := T("status")
  const PRIVATE_KEY: Text := T("domainSigningPrivateKey")

  predicate Pinned(m: Members, key: Text, expected: Value, new_: bool) {
    key in m ==> m[key] == expected || (new_ && m[key] == UNKNOWN_VALUE)
  }

  predicate DkimOk(v: Value, new_: bool, preview: bool) {
    && v.Obj? && v.members.Keys <= DKIM_FIELDS
    && var m := v.members;
    && UnusedPrivateOutput(Get(m, PRIVATE_KEY, Null), preview)
    && !Truthy(Get(m, T("domainSigningSelector"), Null))
    && Pinned(m, NEXT_KEY, RSA_2048, new_)
    && Pinned(m, T("currentSigningKeyLength"), RSA_2048, new_)
    && Pinned(m, T("signingAttributesOrigin"), Str(T("AWS_SES")), new_)
    && (new_ || Tokens(Get(m, TOKENS, Null)).Some?)
    && (STATUS in m ==> m[STATUS] in STATUSES || (new_ && m[STATUS] == UNKNOWN_VALUE))
  }

  const VERIFICATION: Text := T("verificationStatus")
  const VERIFIED: Text := T("verifiedForSendingStatus")

  predicate IdentityOutput(site: Site, key: Text, v: Value, expected: Members, new_: bool, preview: bool) {
    || (new_ && v == UNKNOWN_VALUE)
    || (if key == DKIM then DkimOk(v, new_, preview)
        else if key == VERIFICATION then v in STATUSES
        else if key == VERIFIED then v.Bool?
        else key in expected && PyEq(v, expected[key]))
  }

  predicate IdentityOk(site: Site, row: Row, inputs: Members, new_: bool, preview: bool) {
    && SameMembers(inputs, IdentityInputs(site))
    && var expected := inputs + site.identityOutputs
         + map[ID := Str(site.domain), ARN := site.identityArn, REGION := site.region, TAGS_ALL := site.tags];
    && row.outputs.Keys <= expected.Keys + {VERIFICATION, VERIFIED}
    && (forall k :: k in row.outputs ==> IdentityOutput(site, k, row.outputs[k], expected, new_, preview))
    && (if new_ then FreshId(row)
        else
          && row.id == Some(site.domain)
          && ARN in row.outputs && PyEq(row.outputs[ARN], site.identityArn)
          && DKIM in row.outputs && DkimOk(row.outputs[DKIM], false, preview))
  }

  // ---------------------------------------------------------------- provider, repository and component rows

  /** The inputs of the one provider checkpoint that predates the hardened settings. */
  function LegacyInputs(site: Site): Members {
    map[INTERNAL := Obj(map[]), REGION := site.region, SKIP_CREDENTIALS := FALSE_TEXT,
        SKIP_REGION := Str(T("true")), VERSION := site.version]
  }

  function PublicInputs(inputs: Members): Members {
    inputs - {INTERNAL}
  }

  predicate Off(v: Value) {
    v == Bool(false) || v == FALSE_TEXT
  }

  /** The account list may be held as a list or as its JSON text. */
  function Accounts(site: Site, v: Value): Option<Value> {
    if v.Str? then Loads(site.scan, v.s) else Some(v)
  }

  predicate ProviderInputsOk(site: Site, inputs: Members) {
    && {REGION, ACCOUNTS, VERSION, SKIP_CREDENTIALS, SKIP_REGION, SKIP_ACCOUNT} <= inputs.Keys
    && inputs.Keys <= {REGION, ACCOUNTS, VERSION, INTERNAL, SKIP_CREDENTIALS, SKIP_REGION, SKIP_ACCOUNT}
    && PyEq(inputs[REGION], site.region) && PyEq(inputs[VERSION], site.version)
    && var accounts := Accounts(site, inputs[ACCOUNTS]);
    && accounts.Some? && PyEq(accounts.value, Arr([site.account]))
    && PyEq(Get(inputs, INTERNAL, Obj(map[])), Obj(map[]))
    && Off(inputs[SKIP_CREDENTIALS]) && Off(inputs[SKIP_REGION]) && Off(inputs[SKIP_ACCOUNT])
  }

  predicate ProviderOk(site: Site, row: Row, legacy: bool) {
    var public := PublicInputs(row.inputs);
    if legacy then
      && row.urn == site.provider && row.id == Some(site.legacyId)
      && SameMembers(row.inputs, LegacyInputs(site)) && SameMembers(row.outputs, public)
    else
      && ProviderInputsOk(site, row.inputs)
      && (SameMembers(row.outputs, public) || SameMembers(row.outputs, row.inputs) || row.outputs == map[])
  }

  function RepositoryInputs(site: Site, name: Text): Members {
    map[NAME := Str(name), T("imageTagMutability") := Str(T("IMMUTABLE")), T("forceDelete") := Bool(false),
        SCANNING := Obj(map[SCAN_ON_PUSH := Bool(true)]), TAGS := site.tags]
  }

  predicate RepositoryOk(site: Site, row: Row, new_: bool) {
    && row.urn in site.repositories
    && var repository := site.repositories[row.urn];
       var checked := EcrCheckedInputs(site, row.inputs);
    && checked.Some? && SameMembers(checked.value, RepositoryInputs(site, repository.name))
    && Computed(row.outputs, RepositoryInputs(site, repository.name) + repository.outputs, new_)
    && (if new_ then FreshId(row)
        else
          && row.id == Some(repository.name)
          && ARN in row.outputs && ARN in repository.outputs && PyEq(row.outputs[ARN], repository.outputs[ARN]))
  }

  predicate ComponentOk(site: Site, row: Row, new_: bool) {
    var expected := if row.kind in site.components then site.components[row.kind] else map[];
    && row.inputs == map[]
    && (!new_ && (row.kind == Stack || row.kind == Environment) ==> SameMembers(row.outputs, expected))
    && Computed(row.outputs, expected, new_)
    && IdOf(row) == []
  }

  predicate InputsOutputsOk(site: Site, row: Row, new_: bool, legacy: bool, preview: bool) {
    match row.kind
    case Provider(package) => package == "aws" && ProviderOk(site, row, legacy)
    case Ecr => RepositoryOk(site, row, new_)
    case Ses =>
      var inputs := MailCheckedInputs(site, Ses, row.inputs);
      inputs.Some? && IdentityOk(site, row, inputs.value, new_, preview)
    case Dns =>
      var inputs := MailCheckedInputs(site, Dns, row.inputs);
      inputs.Some? && RecordOk(site, row, inputs.value, new_)
    case _ => ComponentOk(site, row, new_)
  }

  /** `_state`: a row of the graph, in its place, unflagged, with acceptable inputs and outputs. */
  predicate StateOk(site: Site, row: Row, new_: bool, legacy: bool, preview: bool) {
    && row.urn in site.graph
    && var node := site.graph[row.urn];
    && row.kind == node.kind && row.custom == node.custom && row.parent == node.parent
    && !row.flagged
    && InputsOutputsOk(site, row, new_, legacy, preview)
  }
}
