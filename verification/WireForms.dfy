/** Reviewed IAM documents (policy/reviewed_iam.py): a policy matches only by the digest of its canonical text. */
module ReviewedIam {
  import opened ByteStrings
  import opened Options
  import opened Texts
  import opened Json
  import opened JsonText
  import opened CanonicalJson

  /** The sentinel Pulumi uses for a value it does not know yet. */
  const UNKNOWN: Text := T("04da6b54-80e4-46f7-96ec-b56ff0331ba9")

  predicate Contains(s: Text, part: Text) {
    exists i :: 0 <= i <= |s| && part <= s[i..]
  }

  /** No string value anywhere in `v` mentions the sentinel; member names are not looked at. */
  predicate Resolved(v: Value) {
    match v
    case Str(s) => !Contains(s, UNKNOWN)
    case Arr(items) => forall i :: 0 <= i < |items| ==> Resolved(items[i])
    case Obj(members) => forall k :: k in members ==> Resolved(members[k])
    case _ => true
  }

  /** The document a `policy` property stands for: JSON text or the object itself. */
  function Document(scan: FloatScan, policy: Value): Option<Value> {
    var doc :- if policy.Str? then Loads(scan, policy.s) else Some(policy);
    if doc.Obj? && Resolved(doc) then Some(doc) else None
  }

  function CanonicalDocument(scan: FloatScan, policy: Value): Option<Text> {
    var doc :- Document(scan, policy);
    Some(Print(doc))
  }

  /** `sha` is the hash, `pins` the closed set of reviewed digests for this policy's identity. */
  predicate DocumentMatches(scan: FloatScan, sha: Text -> Text, pins: set<Text>, policy: Value) {
    var canonical := CanonicalDocument(scan, policy);
    canonical.Some? && sha(canonical.value) in pins
  }

  /** `s` is a string value of `v`, at whatever depth. */
  predicate HasString(v: Value, s: Text) {
    match v
    case Str(t) => s == t
    case Arr(items) => exists i :: 0 <= i < |items| && HasString(items[i], s)
    case Obj(members) => exists k :: k in members && HasString(members[k], s)
    case _ => false
  }

  predicate Mentions(s: Text) {
    exists i :: 0 <= i && i + 36 <= |s| && MentionsAt(s, i)
  }

  predicate MentionsAt(s: Text, i: nat)
    requires i + 36 <= |s|
  {
    s[i..i + 36] == T("04da6b54-80e4-46f7-96ec-b56ff0331ba9")
  }

  lemma {:induction false} MentionsExactly(s: Text)
    ensures Mentions(s) <==> Contains(s, UNKNOWN)
  {
    assert |UNKNOWN| == 36;
    if i :| 0 <= i <= |s| && UNKNOWN <= s[i..] {
      assert s[i..][..36] == s[i..i + 36];
      assert MentionsAt(s, i);
    }
    if i :| 0 <= i && i + 36 <= |s| && MentionsAt(s, i) {
      assert s[i..][..36] == s[i..i + 36];
    }
  }

  /** A document is resolved exactly if no string in it mentions a value that is not known yet. */
  lemma {:induction false} ResolvedExactly(v: Value)
    ensures Resolved(v) <==> forall s :: HasString(v, s) ==> !Mentions(s)
  {
    match v
    case Str(t) =>
      MentionsExactly(t);
      assert HasString(v, t);
    case Arr(items) =>
      forall i | 0 <= i < |items| ensures Resolved(items[i]) <==> forall s :: HasString(items[i], s) ==> !Mentions(s) {
        ResolvedExactly(items[i]);
      }
      hide Resolved, Mentions;
      assert forall i, s :: 0 <= i < |items| && HasString(items[i], s) ==> HasString(v, s);
    case Obj(members) =>
      forall k | k in members ensures Resolved(members[k]) <==> forall s :: HasString(members[k], s) ==> !Mentions(s) {
        ResolvedExactly(members[k]);
      }
      hide Resolved, Mentions;
      assert forall k, s :: k in members && HasString(members[k], s) ==> HasString(v, s);
    case _ =>
  }

  /** A pinned digest admits the reviewed document, in either form, and no other whole one but a collision. */
  lemma {:induction false} OnlyReviewedMatches(scan: FloatScan, sha: Text -> Text, reviewed: Value, policy: Value)
    requires reviewed.Obj? && Resolved(reviewed) && Whole(reviewed) && FloatsOk(scan, reviewed)
    requires Document(scan, policy).Some? ==>
      Whole(Document(scan, policy).value) && FloatsOk(scan, Document(scan, policy).value)
    ensures DocumentMatches(scan, sha, {sha(Print(reviewed))}, policy) <==>
      Document(scan, policy).Some? && (Document(scan, policy).value == reviewed
        || Collide(sha, Print(Document(scan, policy).value), Print(reviewed)))
    ensures DocumentMatches(scan, sha, {sha(Print(reviewed))}, reviewed)
    ensures DocumentMatches(scan, sha, {sha(Print(reviewed))}, Str(Print(reviewed)))
  {
    CanonicalRoundTrip(scan, reviewed);
    hide Print, Loads, Resolved, Whole, FloatsOk;
    if Document(scan, policy).Some? {
      PrintInjective(scan, Document(scan, policy).value, reviewed);
    }
  }
}

/** The wire form handed to the isolated child (scripts/poc_workload_phase_entrypoint.py). */
module WorkloadProjection {
  import opened Options
  import opened Texts
  import opened Json
  import opened JsonText
  import opened CanonicalJson
  import opened ByteStrings

  datatype Source = Source(
    contractSha: Text, headSha: Text, baseSha: Text, path: Text, blobSha: Text, schemaSha: Text, validatorSha: Text)

  datatype Projection = Projection(source: Source, contract: Value, images: Value)

  /**
   What the code takes from elsewhere: the JSON float converter, the byte codec, the hash, the schema
   and semantic checks on a contract with its images, and the wire limit.
   */
  datatype Runtime = Runtime(
    scan: FloatScan,
    encode: Text -> Bytes,
    decode: Bytes -> Option<Text>,
    sha: Text -> Text,
    valid: (Value, Value) -> bool,
    maxBytes: nat)

  /** Canonical text, being ASCII, survives the byte codec. */
  ghost predicate RuntimeOk(rt: Runtime) {
    forall v: Value :: rt.decode(rt.encode(Print(v))) == Some(Print(v))
  }

  const CONTRACT_PATH: Text := T("specs/poc/poc-test.json")
  const VERSION: Value := Str(T("poc-workload-child-v1"))
  const WORKLOAD: Value := Str(T("workload"))

  predicate Hex(s: Text, n: nat) {
    |s| == n && forall i :: 0 <= i < n ==> 0x30 <= s[i] <= 0x39 || 0x61 <= s[i] <= 0x66
  }

  predicate SourceOk(s: Source) {
    && s.path == CONTRACT_PATH
    && Hex(s.headSha, 40) && Hex(s.baseSha, 40) && Hex(s.blobSha, 40)
    && Hex(s.contractSha, 64) && Hex(s.schemaSha, 64) && Hex(s.validatorSha, 64)
  }

  /** `project_workload_phase`: the source pins the contract by the digest of its canonical text. */
  predicate Admitted(rt: Runtime, p: Projection) {
    && SourceOk(p.source)
    && p.contract.Obj?
    && rt.valid(p.contract, p.images)
    && T("phase") in p.contract.members && p.contract.members[T("phase")] == WORKLOAD
    && rt.sha(Print(p.contract)) == p.source.contractSha
  }

  function SourceDocument(s: Source): Value {
    Obj(map[
      T("contract_sha256") := Str(s.contractSha), T("head_sha") := Str(s.headSha), T("base_sha") := Str(s.baseSha),
      T("path") := Str(s.path), T("blob_sha") := Str(s.blobSha), T("schema_sha256") := Str(s.schemaSha),
      T("validator_sha256") := Str(s.validatorSha)])
  }

  function WireDocument(p: Projection): Value {
    Obj(map[
      T("schema_version") := VERSION, T("source") := SourceDocument(p.source),
      T("contract") := p.contract, T("images") := p.images])
  }

  function Encode(rt: Runtime, p: Projection): Option<Bytes> {
    if !Admitted(rt, p) then None
    else
      var raw := rt.encode(Print(WireDocument(p)));
      if |raw| <= rt.maxBytes then Some(raw) else None
  }

  /** `m[name]` when it is a string. */
  function StringField(m: Members, name: Text): Option<Text> {
    if name in m && m[name].Str? then Some(m[name].s) else None
  }

  /** The field values of a JSON source object that has exactly the known fields. */
  function SourceOf(v: Value): Option<Source> {
    if !v.Obj? || v.members.Keys != {
        T("contract_sha256"), T("head_sha"), T("base_sha"), T("path"), T("blob_sha"), T("schema_sha256"),
        T("validator_sha256")} then None
    else
      var m := v.members;
      var contract :- StringField(m, T("contract_sha256"));
      var head :- StringField(m, T("head_sha"));
      var base :- StringField(m, T("base_sha"));
      var path :- StringField(m, T("path"));
      var blob :- StringField(m, T("blob_sha"));
      var schema :- StringField(m, T("schema_sha256"));
      var validator :- StringField(m, T("validator_sha256"));
      Some(Source(contract, head, base, path, blob, schema, validator))
  }

  /** The projection written in a document that has exactly the known fields and the known version. */
  function WireFields(v: Value): Option<Projection> {
    if !v.Obj? || v.members.Keys != {T("schema_version"), T("source"), T("contract"), T("images")}
      || v.members[T("schema_version")] != VERSION then None
    else
      var source :- SourceOf(v.members[T("source")]);
      Some(Projection(source, v.members[T("contract")], v.members[T("images")]))
  }

  function ReadWire(rt: Runtime, raw: Bytes): Option<Projection> {
    if !(0 < |raw| <= rt.maxBytes) then None
    else
      var text :- rt.decode(raw);
      var doc :- Loads(rt.scan, text);
      WireFields(doc)
  }

  function Decode(rt: Runtime, raw: Bytes): Option<Projection> {
    var p :- ReadWire(rt, raw);
    if Encode(rt, p) == Some(raw) then Some(p) else None
  }

  lemma {:induction false} SourceKeys()
    ensures T("head_sha") != T("base_sha") && T("head_sha") != T("blob_sha") && T("base_sha") != T("blob_sha")
  {
    assert T("head_sha")[0] != T("base_sha")[0] && T("head_sha")[0] != T("blob_sha")[0];
    assert T("base_sha")[1] != T("blob_sha")[1];
  }

  lemma {:induction false} SourceDocumentExact(s: Source, v: Value)
    ensures SourceOf(v) == Some(s) <==> v == SourceDocument(s)
  {
    SourceKeys();
    if SourceOf(v) == Some(s) {
      assert v.members == SourceDocument(s).members;
    }
  }

  lemma {:induction false} WireDocumentExact(p: Projection, v: Value)
    ensures WireFields(v) == Some(p) <==> v == WireDocument(p)
  {
    assert T("source")[0] != T("images")[0];
    SourceDocumentExact(p.source, SourceDocument(p.source));
    if WireFields(v) == Some(p) {
      SourceDocumentExact(p.source, v.members[T("source")]);
      assert v.members == WireDocument(p).members;
    }
  }

  lemma {:induction false} ReadWireExact(rt: Runtime, p: Projection, raw: Bytes)
    requires RuntimeOk(rt) && FloatsOk(rt.scan, WireDocument(p))
    requires raw == rt.encode(Print(WireDocument(p))) && 0 < |raw| <= rt.maxBytes
    ensures ReadWire(rt, raw) == Some(p) <==> Whole(WireDocument(p))
  {
    var doc := WireDocument(p);
    var read := Loads(rt.scan, Print(doc));
    CanonicalRoundTrip(rt.scan, doc);
    if read.Some? {
      WireDocumentExact(p, read.value);
    }
  }

  /** Decoding accepts exactly the encodings of whole projections, and inverts them. */
  lemma {:induction false} WireRoundTrip(rt: Runtime, p: Projection, raw: Bytes)
    requires RuntimeOk(rt) && FloatsOk(rt.scan, WireDocument(p))
    ensures Decode(rt, raw) == Some(p) <==> |raw| > 0 && Encode(rt, p) == Some(raw) && Whole(WireDocument(p))
  {
    if |raw| > 0 && Encode(rt, p) == Some(raw) {
      ReadWireExact(rt, p, raw);
    }
  }

  /** `n` lower-case hexadecimal digits. */
  predicate Digits(s: Text, n: nat) {
    |s| == n && forall i :: 0 <= i < n ==> ('0' as int <= s[i] <= '9' as int) || ('a' as int <= s[i] <= 'f' as int)
  }

  /** The one contract path, 40 digits for commits and the blob, 64 for SHA-256 digests. */
  predicate SoundSource(s: Source) {
    && s.path == T("specs/poc/poc-test.json")
    && Digits(s.headSha, 40) && Digits(s.baseSha, 40) && Digits(s.blobSha, 40)
    && Digits(s.contractSha, 64) && Digits(s.schemaSha, 64) && Digits(s.validatorSha, 64)
  }

  /** The members of the wire document. */
  predicate Written(doc: Value, p: Projection) {
    && doc.Obj? && doc.members.Keys == {T("schema_version"), T("source"), T("contract"), T("images")}
    && doc.members[T("schema_version")] == Str(T("poc-workload-child-v1"))
    && doc.members[T("contract")] == p.contract && doc.members[T("images")] == p.images
    && var source := doc.members[T("source")];
    && source.Obj? && source.members.Keys == {
         T("contract_sha256"), T("head_sha"), T("base_sha"), T("path"), T("blob_sha"), T("schema_sha256"),
         T("validator_sha256")}
    && source.members[T("contract_sha256")] == Str(p.source.contractSha)
    && source.members[T("head_sha")] == Str(p.source.headSha) && source.members[T("base_sha")] == Str(p.source.baseSha)
    && source.members[T("path")] == Str(p.source.path) && source.members[T("blob_sha")] == Str(p.source.blobSha)
    && source.members[T("schema_sha256")] == Str(p.source.schemaSha)
    && source.members[T("validator_sha256")] == Str(p.source.validatorSha)
  }

  lemma {:induction false} WrittenExactly(doc: Value, p: Projection)
    ensures Written(doc, p) <==> doc == WireDocument(p)
  {
    hide SourceOk;
    WireDocumentExact(p, doc);
    if Written(doc, p) {
      assert SourceOf(doc.members[T("source")]) == Some(p.source);
    }
    if doc == WireDocument(p) {
      SourceDocumentExact(p.source, doc.members[T("source")]);
    }
  }

  lemma {:induction false} SourceExactly(s: Source)
    ensures SoundSource(s) <==> SourceOk(s)
  {
  }

  ghost predicate WrittenAs(rt: Runtime, p: Projection, raw: Bytes) {
    exists doc :: Written(doc, p) && raw == rt.encode(Print(doc))
  }

  lemma {:induction false} WrittenAsExactly(rt: Runtime, p: Projection, raw: Bytes)
    ensures WrittenAs(rt, p, raw) <==> raw == rt.encode(Print(WireDocument(p)))
  {
    hide Written, WireDocument, Print;
    WrittenExactly(WireDocument(p), p);
    if doc :| Written(doc, p) && raw == rt.encode(Print(doc)) {
      WrittenExactly(doc, p);
    }
  }

  /** A projection has a wire form exactly if its source and contract are sound, and this is it. */
  lemma {:induction false} EncodedExactly(rt: Runtime, p: Projection, raw: Bytes)
    ensures Encode(rt, p) == Some(raw) <==>
      && SoundSource(p.source) && p.contract.Obj? && rt.valid(p.contract, p.images)
      && T("phase") in p.contract.members && p.contract.members[T("phase")] == Str(T("workload"))
      && p.source.contractSha == rt.sha(Print(p.contract)) && |raw| <= rt.maxBytes && WrittenAs(rt, p, raw)
  {
    hide WrittenAs, WireDocument, Print, SoundSource, SourceOk;
    SourceExactly(p.source);
    WrittenAsExactly(rt, p, raw);
  }

  /** Three bytes a character. */
  function ToBytes(t: Text): Bytes {
    if t == [] then [] else [t[0] / 0x1_0000, t[0] / 0x100 % 0x100, t[0] % 0x100] + ToBytes(t[1..])
  }

  function FromBytes(raw: Bytes): Option<Text> {
    if |raw| < 3 then if raw == [] then Some([]) else None
    else
      var c := raw[0] as int * 0x1_0000 + raw[1] as int * 0x100 + raw[2];
      var rest :- FromBytes(raw[3..]);
      if c < 0x11_0000 then Some([c] + rest) else None
  }

  lemma {:induction false} ThreeBytes(c: CodePoint)
    ensures c / 0x1_0000 * 0x1_0000 + c / 0x100 % 0x100 * 0x100 + c % 0x100 == c
  {
    assert c / 0x100 / 0x100 == c / 0x1_0000;
  }

  lemma {:induction false} BytesRead(t: Text)
    ensures FromBytes(ToBytes(t)) == Some(t)
  {
    if t != [] {
      BytesRead(t[1..]);
      var raw := ToBytes(t);
      assert raw[3..] == ToBytes(t[1..]) && |raw| >= 3;
      ThreeBytes(t[0]);
      assert t == [t[0]] + t[1..];
    }
  }

  /** A codec like the one the round trip relies on exists. */
  lemma {:induction false} RuntimePossible(rt: Runtime)
    ensures RuntimeOk(rt.(encode := ToBytes, decode := FromBytes))
  {
    hide Print, ToBytes, FromBytes;
    forall v: Value ensures FromBytes(ToBytes(Print(v))) == Some(Print(v)) {
      BytesRead(Print(v));
    }
  }

  /** One admitted source fixes the whole contract, not only the fields it repeats. */
  lemma {:induction false} SourceFixesContract(rt: Runtime, p: Projection, q: Projection)
    requires Admitted(rt, p) && Admitted(rt, q) && p.source == q.source
    requires Whole(p.contract) && Whole(q.contract) && FloatsOk(rt.scan, p.contract) && FloatsOk(rt.scan, q.contract)
    ensures p.contract == q.contract || Collide(rt.sha, Print(p.contract), Print(q.contract))
  {
    PrintInjective(rt.scan, p.contract, q.contract);
  }
}

/** Concatenated response pages of the GitHub CLI (scripts/pulumi_command_preflight.py). */
module ResponsePages {
  import opened Options
  import opened Texts
  import opened Json
  import opened JsonText
  import opened CanonicalJson

  function SkipBlank(t: Text): (r: Text)
    ensures |r| <= |t|
    ensures r == t[|t| - |r|..]
    ensures r != [] ==> !IsSpace(r[0])
    ensures forall i :: 0 <= i < |t| - |r| ==> IsSpace(t[i])
  {
    if t != [] && IsSpace(t[0]) then SkipBlank(t[1..]) else t
  }

  /** The values written in `t` one after the other. */
  function ValuesIn(scan: FloatScan, t: Text): Option<seq<Value>>
    decreases |t|
  {
    var u := SkipBlank(t);
    if u == [] then Some([])
    else
      var (tree, rest) :- ReadTree(Scalars(scan), u);
      var page :- Collapse(tree);
      var pages :- ValuesIn(scan, rest);
      Some([page] + pages)
  }

  /** All pages are arrays or all are objects. */
  predicate OneKind(pages: seq<Value>) {
    || (forall i :: 0 <= i < |pages| ==> pages[i].Arr?)
    || (forall i :: 0 <= i < |pages| ==> pages[i].Obj?)
  }

  function Prefixed(pages: seq<Value>, more: Option<seq<Value>>): Option<seq<Value>> {
    if more.Some? then Some(pages + more.value) else None
  }

  lemma {:induction false} MixedKinds(pages: seq<Value>, page: Value, more: seq<Value>)
    requires !(page.Arr? || page.Obj?) || (pages != [] && page.Arr? != pages[0].Arr?)
    ensures !OneKind(pages + [page] + more)
  {
    var all := pages + [page] + more;
    assert all[|pages|] == page && (pages != [] ==> all[0] == pages[0]);
  }

  lemma {:induction false} BlankStep(scan: FloatScan, t: Text)
    requires t != [] && IsSpace(t[0])
    ensures ValuesIn(scan, t) == ValuesIn(scan, t[1..])
  {
  }

  lemma {:induction false} PageStep(scan: FloatScan, t: Text)
    requires t != [] && !IsSpace(t[0])
    ensures var r := ReadTree(Scalars(scan), t);
      ValuesIn(scan, t) ==
      if r.None? || Collapse(r.value.0).None? then None
      else Prefixed([Collapse(r.value.0).value], ValuesIn(scan, r.value.1))
  {
  }

  /** One page more: what the remaining text adds to the pages read so far. */
  lemma {:induction false} PageAppends(pages: seq<Value>, page: Value, more: Option<seq<Value>>)
    ensures Prefixed(pages, Prefixed([page], more)) == Prefixed(pages + [page], more)
  {
    if more.Some? {
      assert pages + ([page] + more.value) == pages + [page] + more.value;
    }
  }

  /** The value at the front of `t`, with no duplicate member, and the text after it. */
  method RawDecode(scan: FloatScan, t: Text) returns (r: Option<(Value, Text)>)
    requires t != [] && !IsSpace(t[0])
    ensures r.None? ==> ValuesIn(scan, t).None?
    ensures r.Some? ==> |r.value.1| < |t| && ValuesIn(scan, t) == Prefixed([r.value.0], ValuesIn(scan, r.value.1))
  {
    PageStep(scan, t);
    var reading := ReadTree(Scalars(scan), t);
    if reading.None? {
      return None;
    }
    var page := Collapse(reading.value.0);
    if page.None? {
      return None;
    }
    return Some((page.value, reading.value.1));
  }

  /** Advances over white space between pages. */
  method SkipBlanks(scan: FloatScan, t: Text) returns (todo: Text)
    ensures ValuesIn(scan, todo) == ValuesIn(scan, t)
    ensures |todo| <= |t| && (todo == [] || !IsSpace(todo[0]))
  {
    todo := t;
    while todo != [] && IsSpace(todo[0])
      invariant ValuesIn(scan, todo) == ValuesIn(scan, t) && |todo| <= |t|
      decreases |todo|
    {
      BlankStep(scan, todo);
      todo := todo[1..];
    }
  }

  method DecodePaginatedPages(scan: FloatScan, raw: Text) returns (r: Option<seq<Value>>)
    ensures r == match ValuesIn(scan, raw)
                 case None => None
                 case Some(pages) => if pages != [] && OneKind(pages) then Some(pages) else None
  {
    assert ValuesIn(scan, []) == Some([]);
    hide ValuesIn;
    var pages: seq<Value> := [];
    var todo := raw;
    ghost var total, more := ValuesIn(scan, raw), ValuesIn(scan, raw);
    assert Prefixed([], more) == more by {
      assert more.Some? ==> [] + more.value == more.value;
    }
    while todo != []
      invariant OneKind(pages)
      invariant more == ValuesIn(scan, todo) && total == Prefixed(pages, more)
      decreases |todo|
    {
      todo := SkipBlanks(scan, todo);
      if todo == [] {
        break;
      }
      var next := RawDecode(scan, todo);
      if next.None? {
        return None;
      }
      var (page, rest) := next.value;
      more := ValuesIn(scan, rest);
      PageAppends(pages, page, more);
      if !(page.Arr? || page.Obj?) || (pages != [] && page.Arr? != pages[0].Arr?) {
        if more.Some? {
          MixedKinds(pages, page, more.value);
        }
        return None;
      }
      pages, todo := pages + [page], rest;
    }
    assert pages + [] == pages;
    if pages == [] {
      return None;
    }
    return Some(pages);
  }

  /** The pages with the given blanks before, between and after them. */
  function Interleave(gaps: seq<Text>, pages: seq<Value>): Text
    requires |gaps| == |pages| + 1
  {
    if pages == [] then gaps[0] else gaps[0] + Print(pages[0]) + Interleave(gaps[1..], pages[1..])
  }

  predicate Blank(t: Text) {
    forall i :: 0 <= i < |t| ==> IsSpace(t[i])
  }

  lemma {:induction false} BlankSkips(gap: Text, t: Text)
    requires Blank(gap) && (t == [] || !IsSpace(t[0]))
    ensures SkipBlank(gap + t) == t
  {
    if gap == [] {
      assert gap + t == t;
    } else {
      assert (gap + t)[1..] == gap[1..] + t;
      BlankSkips(gap[1..], t);
    }
  }

  lemma {:induction false} PageStart(page: Value)
    requires page.Arr? || page.Obj?
    ensures Print(page) != [] && !IsSpace(Print(page)[0]) && Breaks(Print(page))
  {
  }

  /** Whatever blanks separate them, whole pages read back as exactly those pages, in order. */
  lemma {:induction false} PagesRoundTrip(scan: FloatScan, gaps: seq<Text>, pages: seq<Value>)
    requires |gaps| == |pages| + 1 && forall i :: 0 <= i < |gaps| ==> Blank(gaps[i])
    requires forall i :: 0 <= i < |pages| ==>
      (pages[i].Arr? || pages[i].Obj?) && Whole(pages[i]) && FloatsOk(scan, pages[i])
    ensures ValuesIn(scan, Interleave(gaps, pages)) == Some(pages)
    decreases |pages|
  {
    if pages == [] {
      BlankSkips(gaps[0], []);
      assert gaps[0] + [] == gaps[0];
    } else {
      hide SkipBlank, ReadTree, Whole, FloatsOk, TreeOf, Print, ValuesIn, Collapse, Interleave;
      var page, rest := pages[0], Interleave(gaps[1..], pages[1..]);
      PagesRoundTrip(scan, gaps[1..], pages[1..]);
      PageStart(page);
      BlankSkips(gaps[0], Print(page) + rest);
      InterleaveBreaks(gaps[1..], pages[1..]);
      PageReads(scan, page, rest);
      InterleaveStep(gaps, pages);
      FirstPage(scan, gaps[0], page, rest, pages[1..]);
      assert pages == [page] + pages[1..];
    }
  }

  lemma {:induction false} InterleaveStep(gaps: seq<Text>, pages: seq<Value>)
    requires |gaps| == |pages| + 1 && pages != []
    ensures Interleave(gaps, pages) == gaps[0] + (Print(pages[0]) + Interleave(gaps[1..], pages[1..]))
  {
  }

  /** Neither a blank nor a page can extend a number. */
  lemma {:induction false} InterleaveBreaks(gaps: seq<Text>, pages: seq<Value>)
    requires |gaps| == |pages| + 1 && Blank(gaps[0])
    requires pages != [] ==> pages[0].Arr? || pages[0].Obj?
    ensures Breaks(Interleave(gaps, pages))
  {
  }

  lemma {:induction false} FirstPage(scan: FloatScan, gap: Text, page: Value, rest: Text, pages: seq<Value>)
    requires SkipBlank(gap + (Print(page) + rest)) == Print(page) + rest && Print(page) != []
    requires ReadTree(Scalars(scan), Print(page) + rest) == Some((TreeOf(page), rest))
    requires Collapse(TreeOf(page)) == Some(page) && ValuesIn(scan, rest) == Some(pages)
    ensures ValuesIn(scan, gap + (Print(page) + rest)) == Some([page] + pages)
  {
    hide SkipBlank, ReadTree, Collapse, Print, TreeOf;
  }

  lemma {:induction false} PageReads(scan: FloatScan, page: Value, rest: Text)
    requires Whole(page) && FloatsOk(scan, page) && Breaks(rest)
    ensures ReadTree(Scalars(scan), Print(page) + rest) == Some((TreeOf(page), rest))
    ensures Collapse(TreeOf(page)) == Some(page)
  {
    TreeOfPrintable(scan, page);
    ScalarsFaithful(scan);
    TreeReads(scan, Scalars(scan), TreeOf(page), rest);
    TreeOfScalar(page);
    JoinWhole(TreeOf(page));
    TreeOfFolds(page);
  }
}
