/**
 The rows of the registry graph once more: which of them scripts/poc_registry_plan.py and
 scripts/poc_mail_prerequisite.py accept, read off their fields in the names the documents use and without
 normalising their inputs.
 */
module RegistryRowsReference {
  import opened Options
  import opened Texts
  import opened Json
  import opened CanonicalJson
  import opened RegistryRows

  predicate Has(m: Members, name: string, v: Value) {
    T(name) in m && PyEq(m[T(name)], v)
  }

  predicate MayHave(m: Members, name: string, v: Value) {
    T(name) in m ==> PyEq(m[T(name)], v)
  }

  /** The value is the expected one, or not known yet on a new row. */
  predicate Fits(v: Value, expected: Value, new_: bool) {
    PyEq(v, expected) || (new_ && v == Str(T("04da6b54-80e4-46f7-96ec-b56ff0331ba9")))
  }

  /** A dict with one setting, apart from empty defaults. */
  predicate Block(m: Members, key: string, setting: string, v: Value) {
    && T(key) in m
    && var block := AsDict(m[T(key)]);
    && block.Some? && block.value.Keys - {T("__defaults")} == {T(setting)}
    && MayHave(block.value, "__defaults", Arr([])) && Has(block.value, setting, v)
  }

  /** What the provider's check may have added. */
  predicate DefaultsFit(site: Site, m: Members) {
    MayHave(m, "__defaults", Arr([])) && MayHave(m, "region", site.region) && MayHave(m, "tagsAll", site.tags)
  }

  function Added(): set<Text> {
    {T("__defaults"), T("region"), T("tagsAll")}
  }

  // ---------------------------------------------------------------- repositories

  predicate EcrInputs(site: Site, m: Members, name: Text) {
    && DefaultsFit(site, m)
    && m.Keys - Added() ==
       {T("name"), T("imageTagMutability"), T("forceDelete"), T("imageScanningConfiguration"), T("tags")}
    && Has(m, "name", Str(name)) && Has(m, "imageTagMutability", Str(T("IMMUTABLE")))
    && Has(m, "forceDelete", Bool(false)) && Has(m, "tags", site.tags)
    && Block(m, "imageScanningConfiguration", "scanOnPush", Bool(true))
  }

  lemma {:induction false} StripBlockExactly(m: Members, key: string, setting: string, v: Value)
    requires T(key) in m && T(setting) != DEFAULTS
    ensures (StripBlock(m, T(key)).Some? && PyEq(StripBlock(m, T(key)).value[T(key)], Obj(map[T(setting) := v])))
      <==> Block(m, key, setting, v)
  {
    hide PyEq, AsDict;
    var block := AsDict(m[T(key)]);
    if block.Some? && Pop(block.value, DEFAULTS, EMPTY).Some? {
      var stripped := Pop(block.value, DEFAULTS, EMPTY).value;
      var plain := map[T(setting) := v];
      SameMembersPointwise(stripped, plain);
      assert stripped.Keys == block.value.Keys - {T("__defaults")};
      assert StripBlock(m, T(key)) == Some(m[T(key) := Obj(stripped)]);
      assert plain.Keys == {T(setting)};
      if Block(m, key, setting, v) {
        assert T(setting) in stripped && stripped[T(setting)] == block.value[T(setting)];
      }
      if SameMembers(stripped, plain) {
        assert T(setting) in stripped && stripped[T(setting)] == block.value[T(setting)];
      }
    }
  }

  /** The inputs without what the provider's check added at the top. */
  function Stripped(site: Site, m: Members): Option<Members> {
    var a :- Pop(m, DEFAULTS, EMPTY);
    StripDefaults(site, a)
  }

  lemma {:induction false} StrippedExactly(site: Site, m: Members)
    ensures Stripped(site, m).Some? <==> DefaultsFit(site, m)
    ensures Stripped(site, m).Some? ==> Stripped(site, m).value == m - Added()
  {
    hide PyEq;
    KeysDiffer();
    if Stripped(site, m).Some? {
      var a := Pop(m, DEFAULTS, EMPTY).value;
      var b := Pop(a, REGION, site.region).value;
      assert Stripped(site, m) == Pop(b, TAGS_ALL, site.tags);
      assert a == m - {DEFAULTS} && b == a - {REGION};
    }
  }

  /** Five names, each different. */
  lemma {:induction false} EcrNames()
    ensures var names := {T("name"), T("imageTagMutability"), T("forceDelete"), T("tags")};
      SCANNING !in names && names !! Added() && SCANNING !in Added() && |names| == 4
    ensures T("name") != T("tags")
    ensures SCAN_ON_PUSH != DEFAULTS
  {
    assert T("name")[0] != T("tags")[0];
    assert SCAN_ON_PUSH[0] != DEFAULTS[0];
    assert T("name")[0] != T("imageTagMutability")[0];
    assert |T("region")| == 6 && |T("tagsAll")| == 7 && |T("__defaults")| == 10;
    assert |T("name")| == 4 && |T("imageTagMutability")| == 18 && |T("forceDelete")| == 11 && |T("tags")| == 4;
    assert |SCANNING| == 26;
  }

  lemma {:induction false} StripBlockKeeps(m: Members, key: Text)
    requires key in m && StripBlock(m, key).Some?
    ensures StripBlock(m, key).value.Keys == m.Keys
    ensures forall k :: k in m && k != key ==> StripBlock(m, key).value[k] == m[k]
  {
    hide AsDict, Pop;
  }

  lemma {:induction false} RepositoryInputsAre(site: Site, name: Text)
    ensures var m := RepositoryInputs(site, name);
      && m.Keys == {T("name"), T("imageTagMutability"), T("forceDelete"), SCANNING, T("tags")}
      && m[T("name")] == Str(name) && m[T("imageTagMutability")] == Str(T("IMMUTABLE"))
      && m[T("forceDelete")] == Bool(false) && m[T("tags")] == site.tags
      && m[SCANNING] == Obj(map[SCAN_ON_PUSH := Bool(true)])
  {
    EcrNames();
  }

  /** Inputs with the block stripped too are the source's if and only if every name has its value. */
  lemma {:induction false} EcrFields(site: Site, c: Members, name: Text)
    ensures SameMembers(c, RepositoryInputs(site, name)) <==>
      && c.Keys == {T("name"), T("imageTagMutability"), T("forceDelete"), SCANNING, T("tags")}
      && Has(c, "name", Str(name)) && Has(c, "imageTagMutability", Str(T("IMMUTABLE")))
      && Has(c, "forceDelete", Bool(false)) && Has(c, "tags", site.tags)
      && PyEq(c[SCANNING], Obj(map[SCAN_ON_PUSH := Bool(true)]))
  {
    SameMembersPointwise(c, RepositoryInputs(site, name));
    RepositoryInputsAre(site, name);
    hide PyEq, RepositoryInputs, SameMembers;
  }

  lemma {:induction false} EcrInputsExactly(site: Site, m: Members, name: Text)
    ensures EcrInputs(site, m, name) <==>
      EcrCheckedInputs(site, m).Some? && SameMembers(EcrCheckedInputs(site, m).value, RepositoryInputs(site, name))
  {
    hide PyEq, StripDefaults, StripBlock, Block, RepositoryInputs, SameMembers;
    EcrNames();
    StrippedExactly(site, m);
    if Stripped(site, m).Some? && SCANNING in m {
      var b := Stripped(site, m).value;
      assert SCANNING in b && b[SCANNING] == m[SCANNING];
      StripBlockExactly(b, "imageScanningConfiguration", "scanOnPush", Bool(true));
      BlockWithin(b, m, "imageScanningConfiguration", "scanOnPush", Bool(true));
      if StripBlock(b, SCANNING).Some? {
        StripBlockKeeps(b, SCANNING);
      }
    }
    if EcrCheckedInputs(site, m).Some? {
      EcrFields(site, EcrCheckedInputs(site, m).value, name);
    }
  }

  lemma {:induction false} BlockWithin(a: Members, b: Members, key: string, setting: string, v: Value)
    requires T(key) in a && T(key) in b && a[T(key)] == b[T(key)]
    ensures Block(a, key, setting, v) <==> Block(b, key, setting, v)
  {
  }

  predicate EcrOutput(site: Site, k: Text, v: Value, repository: Repository, new_: bool) {
    if k in repository.outputs then Fits(v, repository.outputs[k], new_)
    else
      || (k == T("name") && Fits(v, Str(repository.name), new_))
      || (k == T("imageTagMutability") && Fits(v, Str(T("IMMUTABLE")), new_))
      || (k == T("forceDelete") && Fits(v, Bool(false), new_))
      || (k == T("imageScanningConfiguration") && Fits(v, Obj(map[T("scanOnPush") := Bool(true)]), new_))
      || (k == T("tags") && Fits(v, site.tags, new_))
  }

  /** A new row has no id yet; an old one has the expected id. */
  predicate IdFits(row: Row, expected: Text, new_: bool) {
    if new_ then row.id == None || row.id == Some([]) || row.id == Some(T("04da6b54-80e4-46f7-96ec-b56ff0331ba9"))
    else row.id == Some(expected)
  }

  predicate EcrRow(site: Site, row: Row, new_: bool) {
    && row.urn in site.repositories
    && var repository := site.repositories[row.urn];
    && EcrInputs(site, row.inputs, repository.name)
    && (forall k :: k in row.outputs ==> EcrOutput(site, k, row.outputs[k], repository, new_))
    && IdFits(row, repository.name, new_)
    && (new_ || (T("arn") in repository.outputs && Has(row.outputs, "arn", repository.outputs[T("arn")])))
  }

  lemma {:induction false} EcrOutputExactly(site: Site, k: Text, v: Value, repository: Repository, new_: bool)
    ensures var expected := RepositoryInputs(site, repository.name) + repository.outputs;
      EcrOutput(site, k, v, repository, new_) <==>
        k in expected && (PyEq(v, expected[k]) || (new_ && v == UNKNOWN_VALUE))
  {
    hide PyEq, RepositoryInputs;
    EcrNames();
    RepositoryInputsAre(site, repository.name);
  }

  lemma {:induction false} IdExactly(row: Row, expected: Text, new_: bool)
    ensures IdFits(row, expected, new_) <==> if new_ then FreshId(row) else row.id == Some(expected)
  {
  }

  lemma {:induction false} EcrExactly(site: Site, row: Row, new_: bool)
    ensures EcrRow(site, row, new_) <==> RepositoryOk(site, row, new_)
  {
    hide PyEq, RepositoryInputs, SameMembers, EcrCheckedInputs, EcrInputs, EcrOutput, FreshId, IdFits;
    if row.urn in site.repositories {
      var repository := site.repositories[row.urn];
      EcrInputsExactly(site, row.inputs, repository.name);
      forall k | k in row.outputs
        ensures var expected := RepositoryInputs(site, repository.name) + repository.outputs;
          EcrOutput(site, k, row.outputs[k], repository, new_) <==>
            k in expected && (PyEq(row.outputs[k], expected[k]) || (new_ && row.outputs[k] == UNKNOWN_VALUE))
      {
        EcrOutputExactly(site, k, row.outputs[k], repository, new_);
      }
      IdExactly(row, repository.name, new_);
    }
  }

  // ---------------------------------------------------------------- the mail identity

  predicate SesInputs(site: Site, m: Members) {
    && DefaultsFit(site, m)
    && m.Keys - Added() == {T("emailIdentity"), T("dkimSigningAttributes"), T("tags")}
    && Has(m, "emailIdentity", Str(site.domain)) && Has(m, "tags", site.tags)
    && Block(m, "dkimSigningAttributes", "nextSigningKeyLength", Str(T("RSA_2048_BIT")))
  }

  lemma {:induction false} SesNames()
    ensures var names := {T("emailIdentity"), T("tags")};
      DKIM !in names && names !! Added() && DKIM !in Added() && |names| == 2
    ensures NEXT_KEY != DEFAULTS
  {
    assert |T("region")| == 6 && |T("tagsAll")| == 7 && |T("__defaults")| == 10;
    assert |T("emailIdentity")| == 13 && |T("tags")| == 4 && |DKIM| == 21 && |NEXT_KEY| == 20;
  }

  lemma {:induction false} IdentityInputsAre(site: Site)
    ensures var m := IdentityInputs(site);
      && m.Keys == {T("emailIdentity"), DKIM, T("tags")} && m[T("emailIdentity")] == Str(site.domain)
      && m[T("tags")] == site.tags && m[DKIM] == Obj(map[NEXT_KEY := RSA_2048])
  {
    SesNames();
  }

  lemma {:induction false} SesFields(site: Site, c: Members)
    ensures SameMembers(c, IdentityInputs(site)) <==>
      && c.Keys == {T("emailIdentity"), DKIM, T("tags")}
      && Has(c, "emailIdentity", Str(site.domain)) && Has(c, "tags", site.tags)
      && PyEq(c[DKIM], Obj(map[NEXT_KEY := RSA_2048]))
  {
    SameMembersPointwise(c, IdentityInputs(site));
    IdentityInputsAre(site);
    hide PyEq, IdentityInputs, SameMembers;
  }

  lemma {:induction false} SesInputsExactly(site: Site, m: Members)
    ensures SesInputs(site, m) <==>
      MailCheckedInputs(site, Ses, m).Some? && SameMembers(MailCheckedInputs(site, Ses, m).value, IdentityInputs(site))
  {
    hide PyEq, StripDefaults, StripBlock, Block, IdentityInputs, SameMembers;
    SesNames();
    StrippedExactly(site, m);
    if Stripped(site, m).Some? && DKIM in m {
      var b := Stripped(site, m).value;
      assert DKIM in b && b[DKIM] == m[DKIM];
      StripBlockExactly(b, "dkimSigningAttributes", "nextSigningKeyLength", RSA_2048);
      BlockWithin(b, m, "dkimSigningAttributes", "nextSigningKeyLength", RSA_2048);
      if StripBlock(b, DKIM).Some? {
        StripBlockKeeps(b, DKIM);
      }
    }
    if MailCheckedInputs(site, Ses, m).Some? {
      SesFields(site, MailCheckedInputs(site, Ses, m).value);
    }
  }

  predicate Status(v: Value) {
    v.Str? && v.s in {T("PENDING"), T("SUCCESS"), T("FAILED"), T("TEMPORARY_FAILURE"), T("NOT_STARTED")}
  }

  /** Three different texts of 32 lower-case letters and digits. */
  predicate ThreeTokens(v: Value) {
    && v.Arr? && |v.items| == 3
    && (forall i :: 0 <= i < 3 ==> v.items[i].Str? && IsToken(v.items[i].s))
    && v.items[0] != v.items[1] && v.items[0] != v.items[2] && v.items[1] != v.items[2]
  }

  predicate IsToken(t: Text) {
    |t| == 32 && forall i :: 0 <= i < 32 ==> ('a' as int <= t[i] <= 'z' as int) || ('0' as int <= t[i] <= '9' as int)
  }

  predicate OrUnknown(v: Value, expected: Value, new_: bool) {
    v == expected || (new_ && v == Str(T("04da6b54-80e4-46f7-96ec-b56ff0331ba9")))
  }

  predicate PrivateKeyUnused(v: Value, preview: bool) {
    || v == Null || v == Str([]) || (preview && v == Str(T("[secret]")))
    || (v.Obj? && T("4dabf18193072939515e22adb298388d") in v.members
        && v.members[T("4dabf18193072939515e22adb298388d")] == Str(T("1b47061264138c4ac30d75fd1eb44270"))
        && ((v.members.Keys == {T("4dabf18193072939515e22adb298388d"), T("value")}
             && v.members[T("value")] == Str([]))
            || (v.members.Keys == {T("4dabf18193072939515e22adb298388d"), T("ciphertext")}
                && v.members[T("ciphertext")].Str? && v.members[T("ciphertext")].s != [])))
  }

  predicate DkimOutput(v: Value, new_: bool, preview: bool) {
    && v.Obj?
    && (forall k :: k in v.members ==> DkimField(k, v.members[k], new_, preview))
    && (!new_ ==> T("tokens") in v.members)
  }

  predicate DkimField(k: Text, v: Value, new_: bool, preview: bool) {
    || ((k == T("nextSigningKeyLength") || k == T("currentSigningKeyLength"))
        && OrUnknown(v, Str(T("RSA_2048_BIT")), new_))
    || (k == T("signingAttributesOrigin") && OrUnknown(v, Str(T("AWS_SES")), new_))
    || (k == T("status") && (Status(v) || (new_ && v == Str(T("04da6b54-80e4-46f7-96ec-b56ff0331ba9")))))
    || (k == T("tokens") && (new_ || ThreeTokens(v)))
    || k == T("lastKeyGenerationTimestamp")
    || (k == T("domainSigningPrivateKey") && PrivateKeyUnused(v, preview))
    || (k == T("domainSigningSelector") && !Truthy(v))
  }

  lemma {:induction false} DkimNames()
    ensures var short := {STATUS, TOKENS};
      && STATUS != TOKENS && short !! {NEXT_KEY, T("currentSigningKeyLength"), T("signingAttributesOrigin")}
      && short !! {T("lastKeyGenerationTimestamp"), PRIVATE_KEY, T("domainSigningSelector")}
    ensures NEXT_KEY !in {T("currentSigningKeyLength"), T("signingAttributesOrigin")}
    ensures NEXT_KEY !in {T("lastKeyGenerationTimestamp"), PRIVATE_KEY, T("domainSigningSelector")}
    ensures T("currentSigningKeyLength") != T("signingAttributesOrigin")
    ensures {T("currentSigningKeyLength"), T("signingAttributesOrigin")}
      !! {T("lastKeyGenerationTimestamp"), PRIVATE_KEY, T("domainSigningSelector")}
    ensures T("lastKeyGenerationTimestamp") !in {PRIVATE_KEY, T("domainSigningSelector")}
    ensures PRIVATE_KEY != T("domainSigningSelector")
  {
    assert |STATUS| == 6 && |TOKENS| == 6 && STATUS[0] == 's' as int && TOKENS[0] == 't' as int;
    assert |NEXT_KEY| == 20 && |T("lastKeyGenerationTimestamp")| == 26 && |T("domainSigningSelector")| == 21;
    assert |T("currentSigningKeyLength")| == 23 && T("currentSigningKeyLength")[0] == 'c' as int;
    assert |T("signingAttributesOrigin")| == 23 && T("signingAttributesOrigin")[0] == 's' as int;
    assert |PRIVATE_KEY| == 23 && PRIVATE_KEY[0] == 'd' as int;
  }

  lemma {:induction false} TokensExactly(v: Value)
    ensures ThreeTokens(v) <==> Tokens(v).Some?
  {
    hide Sorted, Ascending;
  }

  lemma {:induction false} PrivateKeyExactly(v: Value, preview: bool)
    ensures PrivateKeyUnused(v, preview) <==> UnusedPrivateOutput(v, preview)
  {
  }

  lemma {:induction false} DkimExactly(v: Value, new_: bool, preview: bool)
    ensures DkimOutput(v, new_, preview) <==> DkimOk(v, new_, preview)
  {
    hide PrivateKeyUnused, UnusedPrivateOutput, ThreeTokens, Tokens, Truthy;
    DkimNames();
    if v.Obj? {
      PrivateKeyExactly(Get(v.members, PRIVATE_KEY, Null), preview);
      TokensExactly(Get(v.members, TOKENS, Null));
      NothingThere(preview);
    }
  }

  lemma {:induction false} NothingThere(preview: bool)
    ensures UnusedPrivateOutput(Null, preview) && !Truthy(Null) && !ThreeTokens(Null)
  {
  }

  function SesOutputs(): set<Text> {
    {T("emailIdentity"), T("dkimSigningAttributes"), T("tags"), T("id"), T("arn"), T("region"), T("tagsAll"),
     T("verificationStatus"), T("verifiedForSendingStatus")}
  }

  predicate SesOutput(site: Site, k: Text, v: Value, new_: bool, preview: bool) {
    || (new_ && v == Str(T("04da6b54-80e4-46f7-96ec-b56ff0331ba9")))
    || (if k == T("dkimSigningAttributes") then DkimOutput(v, new_, preview)
        else if k == T("verificationStatus") then Status(v)
        else if k == T("verifiedForSendingStatus") then v.Bool?
        else if k == T("id") then PyEq(v, Str(site.domain))
        else if k == T("arn") then PyEq(v, site.identityArn)
        else if k == T("region") then PyEq(v, site.region)
        else if k == T("tagsAll") then PyEq(v, site.tags)
        else if k in site.identityOutputs then PyEq(v, site.identityOutputs[k])
        else (k == T("emailIdentity") && PyEq(v, Str(site.domain))) || (k == T("tags") && PyEq(v, site.tags)))
  }

  predicate SesRow(site: Site, row: Row, new_: bool, preview: bool) {
    && SesInputs(site, row.inputs)
    && row.outputs.Keys <= site.identityOutputs.Keys + SesOutputs()
    && (forall k :: k in row.outputs ==> SesOutput(site, k, row.outputs[k], new_, preview))
    && IdFits(row, site.domain, new_)
    && (new_ || (
      && Has(row.outputs, "arn", site.identityArn)
      && T("dkimSigningAttributes") in row.outputs
      && DkimOutput(row.outputs[T("dkimSigningAttributes")], false, preview)))
  }

  lemma {:induction false} SesOutputNames()
    ensures ID != ARN && ID != REGION && ID != TAGS_ALL && ARN != REGION && ARN != TAGS_ALL && REGION != TAGS_ALL
    ensures {ID, ARN, REGION, TAGS_ALL} !! {DKIM, VERIFICATION, VERIFIED, T("emailIdentity"), T("tags")}
    ensures T("emailIdentity") != T("tags") && {DKIM, VERIFICATION, VERIFIED} !! {T("emailIdentity"), T("tags")}
  {
    assert |ID| == 2 && |ARN| == 3 && |REGION| == 6 && |TAGS_ALL| == 7 && |DKIM| == 21 && |VERIFICATION| == 18;
    assert |VERIFIED| == 24 && |T("emailIdentity")| == 13 && |T("tags")| == 4;
  }

  /** What an identity's outputs are compared with. */
  function SesExpected(site: Site, inputs: Members): Members {
    inputs + site.identityOutputs
      + map[ID := Str(site.domain), ARN := site.identityArn, REGION := site.region, TAGS_ALL := site.tags]
  }

  lemma {:induction false} SesExpectedAt(site: Site, inputs: Members, k: Text)
    ensures SesExpected(site, inputs).Keys == inputs.Keys + site.identityOutputs.Keys + {ID, ARN, REGION, TAGS_ALL}
    ensures k in SesExpected(site, inputs) ==>
      SesExpected(site, inputs)[k] ==
      if k == ID then Str(site.domain)
      else if k == ARN then site.identityArn
      else if k == REGION then site.region
      else if k == TAGS_ALL then site.tags
      else if k in site.identityOutputs then site.identityOutputs[k]
      else inputs[k]
  {
    SesOutputNames();
  }

  lemma {:induction false} SesOutputExactly(site: Site, inputs: Members, k: Text, v: Value, new_: bool, preview: bool)
    requires inputs.Keys == {T("emailIdentity"), DKIM, T("tags")}
    requires Has(inputs, "emailIdentity", Str(site.domain)) && Has(inputs, "tags", site.tags)
    requires k in SesExpected(site, inputs).Keys + {VERIFICATION, VERIFIED}
    ensures SesOutput(site, k, v, new_, preview) <==>
      IdentityOutput(site, k, v, SesExpected(site, inputs), new_, preview)
  {
    hide DkimOutput, DkimOk, PyEq, Status, SesExpected;
    SesOutputNames();
    SesExpectedAt(site, inputs, k);
    DkimExactly(v, new_, preview);
    StatusExactly(v);
    if k in inputs && k != DKIM {
      PyEqAlike(v, inputs[k], if k == T("tags") then site.tags else Str(site.domain));
    }
  }

  lemma {:induction false} PyEqAlike(v: Value, a: Value, b: Value)
    requires PyEq(a, b)
    ensures PyEq(v, a) <==> PyEq(v, b)
  {
  }

  lemma {:induction false} StatusExactly(v: Value)
    ensures Status(v) <==> v in STATUSES
  {
  }

  lemma {:induction false} SesExpectedKeys(site: Site, inputs: Members)
    requires inputs.Keys == {T("emailIdentity"), DKIM, T("tags")}
    ensures SesExpected(site, inputs).Keys + {VERIFICATION, VERIFIED} == site.identityOutputs.Keys + SesOutputs()
  {
  }

  lemma {:induction false} SesExactly(site: Site, row: Row, new_: bool, preview: bool)
    ensures SesRow(site, row, new_, preview) <==>
      var inputs := MailCheckedInputs(site, Ses, row.inputs);
      inputs.Some? && IdentityOk(site, row, inputs.value, new_, preview)
  {
    hide PyEq, IdentityInputs, SameMembers, MailCheckedInputs, SesInputs, SesOutput, IdentityOutput, DkimOk, DkimOutput;
    hide FreshId, IdFits, SesOutputs;
    SesInputsExactly(site, row.inputs);
    if SesInputs(site, row.inputs) {
      var inputs := MailCheckedInputs(site, Ses, row.inputs).value;
      SesFields(site, inputs);
      SesExpectedKeys(site, inputs);
      assert SesExpected(site, inputs) == inputs + site.identityOutputs
        + map[ID := Str(site.domain), ARN := site.identityArn, REGION := site.region, TAGS_ALL := site.tags];
      forall k | k in row.outputs && k in SesExpected(site, inputs).Keys + {VERIFICATION, VERIFIED}
        ensures SesOutput(site, k, row.outputs[k], new_, preview) <==>
          IdentityOutput(site, k, row.outputs[k], SesExpected(site, inputs), new_, preview)
      {
        SesOutputExactly(site, inputs, k, row.outputs[k], new_, preview);
      }
      IdExactly(row, site.domain, new_);
      if DKIM in row.outputs {
        DkimExactly(row.outputs[DKIM], false, preview);
      }
    }
  }

  // ---------------------------------------------------------------- mail records

  /** The name and value written from a token, or both unknown. */
  predicate RecordOf(site: Site, m: Members, token: Option<Text>) {
    match token
    case None =>
      && Has(m, "name", Str(T("04da6b54-80e4-46f7-96ec-b56ff0331ba9")))
      && Has(m, "records", Str(T("04da6b54-80e4-46f7-96ec-b56ff0331ba9")))
    case Some(t) =>
      && Has(m, "name", Str(t + T("._domainkey.") + site.domain))
      && Has(m, "records", Arr([Str(t + T(".dkim.amazonses.com"))]))
  }

  predicate DnsInputs(site: Site, m: Members, token: Option<Text>) {
    && MayHave(m, "__defaults", Arr([]))
    && m.Keys - {T("__defaults")} ==
       {T("zoneId"), T("name"), T("type"), T("ttl"), T("records"), T("allowOverwrite")}
    && Has(m, "zoneId", Str(site.zone)) && Has(m, "type", Str(T("CNAME"))) && Has(m, "ttl", Int(300))
    && Has(m, "allowOverwrite", Bool(false))
    && RecordOf(site, m, token)
  }

  lemma {:induction false} DnsNames()
    ensures T("zoneId") !in {T("name"), T("type"), T("ttl"), T("records"), T("allowOverwrite")}
    ensures T("name") !in {T("type"), T("ttl"), T("records"), T("allowOverwrite")}
    ensures T("type") !in {T("ttl"), T("records"), T("allowOverwrite")}
    ensures T("ttl") !in {T("records"), T("allowOverwrite")} && T("records") != T("allowOverwrite")
    ensures DEFAULTS !in {T("zoneId"), T("name"), T("type"), T("ttl"), T("records"), T("allowOverwrite")}
  {
    assert |T("zoneId")| == 6 && |T("name")| == 4 && |T("type")| == 4 && |T("ttl")| == 3 && |T("records")| == 7;
    assert T("name")[0] == 'n' as int && T("type")[0] == 't' as int;
    assert |T("allowOverwrite")| == 14 && |DEFAULTS| == 10;
  }

  lemma {:induction false} RecordInputsAre(site: Site, token: Option<Text>)
    ensures var m := RecordInputs(site, token);
      && m.Keys == {T("zoneId"), T("name"), T("type"), T("ttl"), T("records"), T("allowOverwrite")}
      && m[T("zoneId")] == Str(site.zone) && m[T("type")] == Str(T("CNAME")) && m[T("ttl")] == Int(300)
      && m[T("allowOverwrite")] == Bool(false)
      && (token.None? ==> m[T("name")] == UNKNOWN_VALUE && m[T("records")] == UNKNOWN_VALUE)
      && (token.Some? ==> m[T("name")] == Str(token.value + T("._domainkey.") + site.domain))
      && (token.Some? ==> m[T("records")] == Arr([Str(token.value + T(".dkim.amazonses.com"))]))
  {
    DnsNames();
  }

  lemma {:induction false} DnsInputsExactly(site: Site, m: Members, token: Option<Text>)
    ensures DnsInputs(site, m, token) <==>
      && MailCheckedInputs(site, Dns, m).Some?
      && SameMembers(MailCheckedInputs(site, Dns, m).value, RecordInputs(site, token))
  {
    hide PyEq, RecordInputs, SameMembers;
    DnsNames();
    RecordInputsAre(site, token);
    if MailCheckedInputs(site, Dns, m).Some? {
      var c := MailCheckedInputs(site, Dns, m).value;
      assert c == m - {DEFAULTS};
      SameMembersPointwise(c, RecordInputs(site, token));
    }
  }

  function RecordName(m: Members): Text {
    if T("name") in m && m[T("name")].Str? then m[T("name")].s else []
  }

  function RecordId(site: Site, m: Members): Text {
    site.zone + T("_") + RecordName(m) + T("_CNAME")
  }

  predicate DnsOutput(site: Site, k: Text, v: Value, inputs: Members, new_: bool) {
    if k == T("fqdn") then Fits(v, Str(RecordName(inputs)), new_)
    else if k == T("id") then Fits(v, Str(RecordId(site, inputs)), new_)
    else if k in site.recordOutputs then Fits(v, site.recordOutputs[k], new_)
    else k in inputs && k != T("__defaults") && Fits(v, inputs[k], new_)
  }

  predicate DnsInputsOf(site: Site, m: Members, token: Option<Text>) {
    (token.Some? ==> IsToken(token.value)) && DnsInputs(site, m, token)
  }

  ghost predicate DnsRow(site: Site, row: Row, new_: bool) {
    && (exists token :: DnsInputsOf(site, row.inputs, token))
    && (forall k :: k in row.outputs ==> DnsOutput(site, k, row.outputs[k], row.inputs, new_))
    && IdFits(row, RecordId(site, row.inputs), new_)
  }

  lemma {:induction false} LabelOf(t: Text, rest: Text)
    requires (forall i :: 0 <= i < |t| ==> t[i] != 0x2E) && rest != [] && rest[0] == 0x2E
    ensures FirstLabel(t + rest) == t
  {
    if t == [] {
      assert t + rest == rest;
    } else {
      LabelOf(t[1..], rest);
      assert (t + rest)[1..] == t[1..] + rest;
    }
  }

  lemma {:induction false} IsTokenExactly(t: Text)
    ensures IsToken(t) <==> TokenText(t)
    ensures IsToken(t) ==> forall i :: 0 <= i < |t| ==> t[i] != 0x2E
  {
  }

  /** The record's token, if it has one, is the first label of its name. */
  lemma {:induction false} TokenOfRecord(site: Site, m: Members, token: Option<Text>)
    requires DnsInputsOf(site, m, token)
    ensures T("name") in m && m[T("name")] == Str(RecordName(m))
    ensures token == if RecordName(m) == UNKNOWN then None else Some(FirstLabel(RecordName(m)))
    ensures token.Some? ==> TokenText(token.value)
  {
    if token.Some? {
      var t, rest := token.value, T("._domainkey.") + site.domain;
      assert t + rest == t + T("._domainkey.") + site.domain;
      IsTokenExactly(t);
      LabelOf(t, rest);
      assert |UNKNOWN| == 36 && UNKNOWN[8] == 0x2D;
      assert (t + rest)[8] == t[8];
    }
  }

  lemma {:induction false} DnsInputsOk(site: Site, row: Row)
    ensures (exists token :: DnsInputsOf(site, row.inputs, token)) <==>
      var inputs := MailCheckedInputs(site, Dns, row.inputs);
      && inputs.Some? && inputs.value.Keys == RecordInputs(site, None).Keys && inputs.value[NAME].Str?
      && var name := inputs.value[NAME].s;
         var token := if name == UNKNOWN then None else Some(FirstLabel(name));
      && (token.Some? ==> TokenText(token.value)) && SameMembers(inputs.value, RecordInputs(site, token))
  {
    hide RecordInputs, SameMembers, RecordOf, DnsInputs, FirstLabel, TokenText, IsToken;
    var inputs := MailCheckedInputs(site, Dns, row.inputs);
    RecordInputsAre(site, None);
    DnsNames();
    if token :| DnsInputsOf(site, row.inputs, token) {
      TokenOfRecord(site, row.inputs, token);
      DnsInputsExactly(site, row.inputs, token);
      RecordInputsAre(site, token);
      SameMembersPointwise(inputs.value, RecordInputs(site, token));
    }
    if inputs.Some? && inputs.value.Keys == RecordInputs(site, None).Keys && inputs.value[NAME].Str? {
      var name := inputs.value[NAME].s;
      var token := if name == UNKNOWN then None else Some(FirstLabel(name));
      DnsInputsExactly(site, row.inputs, token);
      if token.Some? {
        IsTokenExactly(token.value);
      }
      if (token.Some? ==> TokenText(token.value)) && SameMembers(inputs.value, RecordInputs(site, token)) {
        assert DnsInputsOf(site, row.inputs, token);
      }
    }
  }

  lemma {:induction false} DnsOutputExactly(site: Site, k: Text, v: Value, m: Members, new_: bool)
    requires T("name") in m && m[T("name")].Str?
    ensures DnsOutput(site, k, v, m, new_) <==>
      var expected := (m - {DEFAULTS}) + site.recordOutputs
        + map[T("fqdn") := m[NAME], ID := Str(site.zone + T("_") + m[NAME].s + T("_CNAME"))];
      k in expected && (PyEq(v, expected[k]) || (new_ && v == UNKNOWN_VALUE))
  {
    hide PyEq;
    assert |T("fqdn")| == 4 && |ID| == 2;
  }

  lemma {:induction false} DnsExactly(site: Site, row: Row, new_: bool)
    ensures DnsRow(site, row, new_) <==>
      var inputs := MailCheckedInputs(site, Dns, row.inputs);
      inputs.Some? && RecordOk(site, row, inputs.value, new_)
  {
    hide PyEq, RecordInputs, SameMembers, DnsInputsOf, DnsOutput, FreshId, IdFits, FirstLabel, TokenText;
    DnsInputsOk(site, row);
    if exists token :: DnsInputsOf(site, row.inputs, token) {
      var m := row.inputs;
      var inputs := MailCheckedInputs(site, Dns, m).value;
      assert inputs == m - {DEFAULTS};
      DnsNames();
      RecordInputsAre(site, None);
      assert NAME in inputs && NAME in m;
      forall k | k in row.outputs
        ensures DnsOutput(site, k, row.outputs[k], m, new_) <==>
          var expected := inputs + site.recordOutputs
            + map[T("fqdn") := m[NAME], ID := Str(site.zone + T("_") + m[NAME].s + T("_CNAME"))];
          k in expected && (PyEq(row.outputs[k], expected[k]) || (new_ && row.outputs[k] == UNKNOWN_VALUE))
      {
        DnsOutputExactly(site, k, row.outputs[k], m, new_);
      }
      IdExactly(row, RecordId(site, m), new_);
    }
  }

  // ---------------------------------------------------------------- providers and components

  predicate SwitchedOff(m: Members, name: string) {
    T(name) in m && (m[T(name)] == Bool(false) || m[T(name)] == Str(T("false")))
  }

  /** The one account, as a list or as the JSON text of one. */
  predicate OnlyAccount(site: Site, v: Value) {
    if v.Str? then Loads(site.scan, v.s).Some? && PyEq(Loads(site.scan, v.s).value, Arr([site.account]))
    else PyEq(v, Arr([site.account]))
  }

  predicate Settings(site: Site, m: Members) {
    && m.Keys - {T("__internal")} ==
       {T("region"), T("allowedAccountIds"), T("version"), T("skipCredentialsValidation"),
        T("skipRegionValidation"), T("skipRequestingAccountId")}
    && MayHave(m, "__internal", Obj(map[])) && Has(m, "region", site.region) && Has(m, "version", site.version)
    && OnlyAccount(site, m[T("allowedAccountIds")])
    && SwitchedOff(m, "skipCredentialsValidation") && SwitchedOff(m, "skipRegionValidation")
    && SwitchedOff(m, "skipRequestingAccountId")
  }

  predicate ProviderRow(site: Site, row: Row) {
    && Settings(site, row.inputs)
    && (row.outputs == map[] || SameMembers(row.outputs, row.inputs)
        || SameMembers(row.outputs, row.inputs - {T("__internal")}))
  }

  /** The inputs of the provider before the settings were hardened. */
  predicate LegacySettings(site: Site, m: Members) {
    && m.Keys == {T("__internal"), T("region"), T("skipCredentialsValidation"), T("skipRegionValidation"), T("version")}
    && Has(m, "__internal", Obj(map[])) && Has(m, "region", site.region) && Has(m, "version", site.version)
    && Has(m, "skipCredentialsValidation", Str(T("false"))) && Has(m, "skipRegionValidation", Str(T("true")))
  }

  predicate LegacyProviderRow(site: Site, row: Row) {
    && row.urn == site.provider && row.id == Some(site.legacyId) && LegacySettings(site, row.inputs)
    && SameMembers(row.outputs, row.inputs - {T("__internal")})
  }

  predicate ComponentRow(site: Site, row: Row, new_: bool) {
    var expected := if row.kind in site.components then site.components[row.kind] else map[];
    && row.inputs == map[] && (row.id == None || row.id == Some([]))
    && (forall k :: k in row.outputs ==> k in expected && Fits(row.outputs[k], expected[k], new_))
    && (!new_ && (row.kind == Stack || row.kind == Environment) ==> expected.Keys <= row.outputs.Keys)
  }

  lemma {:induction false} SettingNames()
    ensures INTERNAL !in {REGION, ACCOUNTS, VERSION, SKIP_CREDENTIALS, SKIP_REGION, SKIP_ACCOUNT}
    ensures REGION !in {ACCOUNTS, VERSION, SKIP_CREDENTIALS, SKIP_REGION, SKIP_ACCOUNT}
    ensures VERSION !in {ACCOUNTS, SKIP_CREDENTIALS, SKIP_REGION, SKIP_ACCOUNT}
    ensures SKIP_CREDENTIALS !in {SKIP_REGION, SKIP_ACCOUNT} && SKIP_REGION != SKIP_ACCOUNT
  {
    assert |INTERNAL| == 10 && |REGION| == 6 && |VERSION| == 7 && |ACCOUNTS| == 17;
    assert |SKIP_CREDENTIALS| == 25 && |SKIP_REGION| == 20 && |SKIP_ACCOUNT| == 23;
  }

  lemma {:induction false} LegacyExactly(site: Site, m: Members)
    ensures LegacySettings(site, m) <==> SameMembers(m, LegacyInputs(site))
  {
    SettingNames();
    SameMembersPointwise(m, LegacyInputs(site));
    hide PyEq, SameMembers;
  }

  lemma {:induction false} SettingsExactly(site: Site, m: Members)
    ensures ProviderInputsOk(site, m) <==> Settings(site, m)
  {
    hide PyEq, Loads;
    SettingNames();
    EmptyEqual();
    var six := {REGION, ACCOUNTS, VERSION, SKIP_CREDENTIALS, SKIP_REGION, SKIP_ACCOUNT};
    assert (six <= m.Keys && m.Keys <= six + {INTERNAL}) <==> m.Keys - {INTERNAL} == six;
    assert six + {INTERNAL} == {REGION, ACCOUNTS, VERSION, INTERNAL, SKIP_CREDENTIALS, SKIP_REGION, SKIP_ACCOUNT};
  }

  lemma {:induction false} ProviderExactly(site: Site, row: Row, legacy: bool)
    ensures (if legacy then LegacyProviderRow(site, row) else ProviderRow(site, row)) <==> ProviderOk(site, row, legacy)
  {
    hide LegacySettings, LegacyInputs, SameMembers, Settings, ProviderInputsOk;
    LegacyExactly(site, row.inputs);
    SettingsExactly(site, row.inputs);
  }

  lemma {:induction false} EmptyEqual()
    ensures PyEq(Obj(map[]), Obj(map[]))
  {
  }

  lemma {:induction false} ComponentExactly(site: Site, row: Row, new_: bool)
    ensures ComponentRow(site, row, new_) <==> ComponentOk(site, row, new_)
  {
    var expected := if row.kind in site.components then site.components[row.kind] else map[];
    SameMembersPointwise(row.outputs, expected);
    hide PyEq, SameMembers;
  }

  // ---------------------------------------------------------------- all rows

  ghost predicate OfItsKind(site: Site, row: Row, new_: bool, legacy: bool, preview: bool) {
    match row.kind
    case Provider(package) =>
      package == "aws" && if legacy then LegacyProviderRow(site, row) else ProviderRow(site, row)
    case Ecr => EcrRow(site, row, new_)
    case Ses => SesRow(site, row, new_, preview)
    case Dns => DnsRow(site, row, new_)
    case _ => ComponentRow(site, row, new_)
  }

  /** A row of the graph in its place, with no lifecycle flag, and the inputs, outputs and id of its kind. */
  ghost predicate SoundRow(site: Site, row: Row, new_: bool, legacy: bool, preview: bool) {
    && row.urn in site.graph && row.kind == site.graph[row.urn].kind && row.parent == site.graph[row.urn].parent
    && row.custom == site.graph[row.urn].custom && !row.flagged
    && OfItsKind(site, row, new_, legacy, preview)
  }

  /** Exactly which rows the gate accepts, read off their fields. */
  lemma {:induction false} RowExactly(site: Site, row: Row, new_: bool, legacy: bool, preview: bool)
    ensures StateOk(site, row, new_, legacy, preview) <==> SoundRow(site, row, new_, legacy, preview)
  {
    hide ProviderOk, ProviderRow, LegacyProviderRow, EcrRow, RepositoryOk, SesRow, IdentityOk, DnsRow, RecordOk;
    hide ComponentRow, ComponentOk, MailCheckedInputs;
    match row.kind
    case Provider(_) => ProviderExactly(site, row, legacy);
    case Ecr => EcrExactly(site, row, new_);
    case Ses => SesExactly(site, row, new_, preview);
    case Dns => DnsExactly(site, row, new_);
    case _ => ComponentExactly(site, row, new_);
  }
}
