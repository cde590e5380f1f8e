/**
 In-place preparation of a stack configuration (`_materialize_provider_pins`, `_materialize_workload_config`
 and `_configuration` in scripts/_pulumi_stack_config.py): provider settings are pinned, the workload's public
 settings merged in, and the existing encryption kept.
 */
module StackConfig {
  import opened Options
  import opened Texts
  import opened Json

  const AWS: Text := T("aws")
  const AWS_PREFIX: Text := T("aws:")
  const CONFIG_PREFIX: Text := T("config:")
  const SKIP_PREFIX: Text := T("skip")
  const CONFIG: Text := T("config")
  const SALT: Text := T("encryptionsalt")
  const PROVIDER: Text := T("secretsprovider")
  const KEY: Text := T("encryptedkey")
  const REGION: Text := T("region")
  const ACCOUNTS: Text := T("allowedAccountIds")
  const SKIP_CREDENTIALS: Text := T("skipCredentialsValidation")
  const SKIP_REGION: Text := T("skipRegionValidation")
  const SKIP_ACCOUNT: Text := T("skipRequestingAccountId")
  const FALSE_TEXT: Value := Str(T("false"))

  /** The pinned account and region, and how a JSON text is read. */
  datatype Target = Target(account: Text, region: Text, loads: Text -> Option<Value>)

  /** The encryption of the existing stack. */
  datatype Encryption = Encryption(url: Value, key: Value)

  function Get(m: Members, key: Text, default: Value): Value {
    if key in m then m[key] else default
  }

  // ---------------------------------------------------------------- provider pins

  function Pins(t: Target): Members {
    map[REGION := Str(t.region), ACCOUNTS := Arr([Str(t.account)]), SKIP_CREDENTIALS := Bool(false),
        SKIP_REGION := Bool(false), SKIP_ACCOUNT := Bool(false)]
  }

  predicate AwsKey(key: Text) {
    key == AWS || AWS_PREFIX <= key
  }

  /** `key.removeprefix(prefix)`. */
  function RemovePrefix(key: Text, prefix: Text): Text {
    if prefix <= key then key[|prefix|..] else key
  }

  function FieldOf(key: Text): Text {
    RemovePrefix(RemovePrefix(key, AWS_PREFIX), CONFIG_PREFIX)
  }

  /** `_provider_pin_value`: the account list may be JSON text, and a skip flag the text `false`. */
  function PinValue(t: Target, field: Text, v: Value): Option<Value> {
    if field == ACCOUNTS && v.Str? then t.loads(v.s)
    else if SKIP_PREFIX <= field && v == FALSE_TEXT then Some(Bool(false))
    else Some(v)
  }

  predicate EntryOk(t: Target, key: Text, v: Value) {
    AwsKey(key) ==>
      && FieldOf(key) in Pins(t)
      && PinValue(t, FieldOf(key), v) == Some(Pins(t)[FieldOf(key)])
  }

  predicate PinsOk(t: Target, settings: Members) {
    forall k :: k in settings ==> EntryOk(t, k, settings[k])
  }

  /** The settings that are not the provider's. */
  function NonAws(settings: Members): Members {
    map k | k in settings && !AwsKey(k) :: settings[k]
  }

  /** The pinned entries, under their full names. */
  function PinEntries(t: Target): Members {
    assert forall f | f in Pins(t) :: (AWS_PREFIX + f)[|AWS_PREFIX|..] == f;
    map f | f in Pins(t) :: AWS_PREFIX + f := Pins(t)[f]
  }

  function Settings(config: Members): Option<Members> {
    var settings := Get(config, CONFIG, Obj(map[]));
    if settings.Obj? then Some(settings.members) else None
  }

  /** A configuration whose provider entries have been checked, and made to be the pins if asked. */
  function Pinned(t: Target, config: Members, materialize: bool): Option<Members> {
    var settings :- Settings(config);
    if !PinsOk(t, settings) then None
    else Some(config[CONFIG := Obj(if materialize then NonAws(settings) + PinEntries(t) else settings)])
  }

  // ---------------------------------------------------------------- workload settings

  /** Settings already present agree with the workload's. */
  predicate Agrees(settings: Members, workload: Members) {
    forall k :: k in workload && k in settings ==> PyEq(settings[k], workload[k])
  }

  function Merged(config: Members, workload: Option<Members>): Option<Members> {
    if workload.None? then Some(config)
    else
      var settings :- Settings(config);
      if Agrees(settings, workload.value) then Some(config[CONFIG := Obj(settings + workload.value)]) else None
  }

  // ---------------------------------------------------------------- the whole step

  predicate EncryptionOk(e: Encryption, config: Members) {
    && !Truthy(Get(config, SALT, Null))
    && PyEq(Get(config, PROVIDER, e.url), e.url)
    && PyEq(Get(config, KEY, e.key), e.key)
  }

  function Encrypted(e: Encryption, config: Members): Members {
    (config - {SALT})[PROVIDER := e.url][KEY := e.key]
  }

  /** `_configuration`, from the committed document on. */
  function Configured(t: Target, e: Encryption, config: Members, materialize: bool, workload: Option<Members>)
    : Option<Members>
  {
    if !EncryptionOk(e, config) then None
    else
      var pinned :- Pinned(t, Encrypted(e, config), materialize);
      Merged(pinned, workload)
  }

  /** Each provider entry is checked, and removed if it is to be replaced. */
  method CheckEntries(t: Target, settings: Members, materialize: bool) returns (r: Option<Members>)
    ensures r.Some? <==> PinsOk(t, settings)
    ensures r.Some? ==> r.value == if materialize then NonAws(settings) else settings
  {
    hide EntryOk;
    var rest, todo := settings, settings.Keys;
    while todo != {}
      invariant todo <= settings.Keys
      invariant forall k :: k in settings.Keys - todo ==> EntryOk(t, k, settings[k])
      invariant rest == map k | k in settings && (k in todo || !materialize || !AwsKey(k)) :: settings[k]
      decreases |todo|
    {
      var key :| key in todo;
      if !EntryOk(t, key, settings[key]) {
        return None;
      }
      if materialize && AwsKey(key) {
        rest := rest - {key};
      }
      todo := todo - {key};
    }
    return Some(rest);
  }

  method CheckAgreement(settings: Members, workload: Members) returns (ok: bool)
    ensures ok <==> Agrees(settings, workload)
  {
    hide PyEq;
    var todo := workload.Keys;
    while todo != {}
      invariant todo <= workload.Keys
      invariant forall k :: k in workload.Keys - todo && k in settings ==> PyEq(settings[k], workload[k])
      decreases |todo|
    {
      var key :| key in todo;
      if key in settings && !PyEq(settings[key], workload[key]) {
        return false;
      }
      todo := todo - {key};
    }
    return true;
  }

  /** A configuration document being prepared. */
  class Document {
    var config: Members

    constructor (config: Members)
      ensures this.config == config
    {
      this.config := config;
    }

    /** `config.setdefault("config", {})`, which must be a mapping. */
    method SettingsOf() returns (r: Option<Members>)
      modifies this
      ensures r == Settings(old(config))
      ensures config == if CONFIG in old(config) then old(config) else old(config)[CONFIG := Obj(map[])]
    {
      if CONFIG !in config {
        config := config[CONFIG := Obj(map[])];
      }
      return if config[CONFIG].Obj? then Some(config[CONFIG].members) else None;
    }

    /** `_materialize_provider_pins`: provider entries are checked and removed, then all pins set. */
    method MaterializePins(t: Target, materialize: bool) returns (ok: bool)
      modifies this
      ensures ok <==> Pinned(t, old(config), materialize).Some?
      ensures ok ==> config == Pinned(t, old(config), materialize).value
    {
      hide EntryOk, PinEntries, PinsOk, NonAws;
      var found := SettingsOf();
      if found.None? {
        return false;
      }
      var rest := CheckEntries(t, found.value, materialize);
      if rest.None? {
        return false;
      }
      config := config[CONFIG := Obj(if materialize then rest.value + PinEntries(t) else rest.value)];
      return true;
    }

    /** `_materialize_workload_config`; the caller has validated the workload's settings. */
    method MergeWorkload(workload: Option<Members>) returns (ok: bool)
      modifies this
      ensures ok <==> Merged(old(config), workload).Some?
      ensures ok ==> config == Merged(old(config), workload).value
    {
      if workload.None? {
        return true;
      }
      var settings := SettingsOf();
      if settings.None? {
        return false;
      }
      var agrees := CheckAgreement(settings.value, workload.value);
      if !agrees {
        return false;
      }
      config := config[CONFIG := Obj(settings.value + workload.value)];
      return true;
    }

    /** `_configuration`. */
    method Configure(t: Target, e: Encryption, materialize: bool, workload: Option<Members>) returns (ok: bool)
      modifies this
      ensures ok <==> Configured(t, e, old(config), materialize, workload).Some?
      ensures ok ==> config == Configured(t, e, old(config), materialize, workload).value
    {
      hide Pinned, Merged;
      if !EncryptionOk(e, config) {
        return false;
      }
      config := Encrypted(e, config);
      ok := MaterializePins(t, materialize);
      if ok {
        ok := MergeWorkload(workload);
      }
    }
  }

  // ---------------------------------------------------------------- what the pins leave

  lemma {:induction false} PinNames(t: Target, f: Text)
    requires f in Pins(t)
    ensures FieldOf(AWS_PREFIX + f) == f && AwsKey(AWS_PREFIX + f)
    ensures PinValue(t, f, Pins(t)[f]) == Some(Pins(t)[f])
  {
    PinFieldsDiffer();
    assert !(CONFIG_PREFIX <= f) by {
      assert f[0] != CONFIG_PREFIX[0];
    }
    assert (AWS_PREFIX + f)[|AWS_PREFIX|..] == f;
  }

  lemma {:induction false} PinFieldsDiffer()
    ensures REGION != ACCOUNTS && SKIP_CREDENTIALS != ACCOUNTS && SKIP_REGION != ACCOUNTS && SKIP_ACCOUNT != ACCOUNTS
    ensures REGION !in {SKIP_CREDENTIALS, SKIP_REGION, SKIP_ACCOUNT}
    ensures SKIP_CREDENTIALS != SKIP_REGION && SKIP_CREDENTIALS != SKIP_ACCOUNT && SKIP_REGION != SKIP_ACCOUNT
    ensures !(SKIP_PREFIX <= REGION) && !(SKIP_PREFIX <= ACCOUNTS)
  {
    assert |REGION| == 6 && |ACCOUNTS| == 17 && |SKIP_CREDENTIALS| == 25 && |SKIP_REGION| == 20 && |SKIP_ACCOUNT| == 23;
    assert REGION[0] != SKIP_PREFIX[0] && ACCOUNTS[0] != SKIP_PREFIX[0];
  }

  /** An entry is pinned exactly when its key is the full name of a pin and its value the pin's. */
  lemma {:induction false} PinEntriesAt(t: Target, key: Text)
    ensures key in PinEntries(t) ==>
      AwsKey(key) && FieldOf(key) in Pins(t) && key == AWS_PREFIX + FieldOf(key)
      && PinEntries(t)[key] == Pins(t)[FieldOf(key)] && EntryOk(t, key, PinEntries(t)[key])
    ensures forall f :: f in Pins(t) ==> AWS_PREFIX + f in PinEntries(t)
  {
    if key in PinEntries(t) {
      var f :| f in Pins(t) && key == AWS_PREFIX + f;
      PinNames(t, f);
    }
  }

  /** The provider entries of some settings. */
  function AwsEntries(settings: Members): Members {
    map k | k in settings && AwsKey(k) :: settings[k]
  }

  /**
   Materialising the pins leaves exactly the pinned provider entries, each with its value, and every other
   setting and every other part of the document as it was.
   */
  lemma {:induction false} PinsExact(t: Target, config: Members)
    requires Pinned(t, config, true).Some?
    ensures var before, after := Settings(config).value, Settings(Pinned(t, config, true).value);
      && after.Some?
      && AwsEntries(after.value) == PinEntries(t) && NonAws(after.value) == NonAws(before)
      && Pinned(t, config, true).value - {CONFIG} == config - {CONFIG}
  {
    hide PinEntries, EntryOk, AwsKey;
    var before := Settings(config).value;
    var after := NonAws(before) + PinEntries(t);
    forall k | k in PinEntries(t) ensures AwsKey(k) {
      PinEntriesAt(t, k);
    }
    assert AwsEntries(after) == PinEntries(t);
    assert NonAws(after) == NonAws(before);
  }

  lemma {:induction false} FiveOf(a: Text, b: Text, c: Text, d: Text, e: Text)
    requires |a| < |b| < |c| < |d| < |e|
    ensures |{a, b, c, d, e}| == 5
  {
  }

  /** There are five pins. */
  lemma {:induction false} PinsSize(t: Target)
    ensures |PinEntries(t)| == 5
  {
    var a, b, c := AWS_PREFIX + REGION, AWS_PREFIX + ACCOUNTS, AWS_PREFIX + SKIP_REGION;
    var d, e := AWS_PREFIX + SKIP_ACCOUNT, AWS_PREFIX + SKIP_CREDENTIALS;
    FiveOf(a, b, c, d, e);
    assert PinEntries(t).Keys == {a, b, c, d, e};
  }

  /** Pinned settings are accepted, and pinning them again changes nothing. */
  lemma {:induction false} PinnedAgain(t: Target, settings: Members)
    requires AwsEntries(settings) == PinEntries(t)
    ensures PinsOk(t, settings) && NonAws(settings) + PinEntries(t) == settings
  {
    hide PinEntries, EntryOk, AwsKey;
    forall k | k in settings ensures EntryOk(t, k, settings[k]) {
      if AwsKey(k) {
        assert k in AwsEntries(settings);
        PinEntriesAt(t, k);
      } else {
        OtherEntryOk(t, k, settings[k]);
      }
    }
    forall k | k in settings ensures k in NonAws(settings) + PinEntries(t) {
      assert AwsKey(k) ==> k in AwsEntries(settings);
    }
    forall k | k in PinEntries(t) ensures k in settings && settings[k] == PinEntries(t)[k] {
      assert k in AwsEntries(settings);
    }
  }

  lemma {:induction false} OtherEntryOk(t: Target, key: Text, v: Value)
    requires !AwsKey(key)
    ensures EntryOk(t, key, v)
  {
  }

  // ---------------------------------------------------------------- the merge

  /** The workload's settings are public strings, none of them the provider's. */
  predicate WorkloadOk(workload: Option<Members>) {
    workload.Some? ==> forall k :: k in workload.value ==> !AwsKey(k) && workload.value[k].Str?
  }

  /** The merge only extends: nothing that was set changes, and what is new is the workload's. */
  lemma {:induction false} MergeExtends(config: Members, workload: Members)
    requires WorkloadOk(Some(workload)) && Merged(config, Some(workload)).Some?
    ensures var before, after := Settings(config).value, Settings(Merged(config, Some(workload)).value);
      && after.Some? && after.value.Keys == before.Keys + workload.Keys
      && (forall k :: k in before ==> after.value[k] == before[k])
      && (forall k :: k in workload ==> after.value[k] == workload[k])
      && AwsEntries(after.value) == AwsEntries(before)
      && Merged(config, Some(workload)).value - {CONFIG} == config - {CONFIG}
  {
  }

  lemma {:induction false} MergedAgain(config: Members, workload: Members)
    requires Settings(config).Some? && CONFIG in config
    requires forall k :: k in workload ==> k in Settings(config).value && Settings(config).value[k] == workload[k]
    ensures Merged(config, Some(workload)) == Some(config)
  {
    var settings := Settings(config).value;
    assert settings + workload == settings;
    assert config[CONFIG := Obj(settings)] == config;
  }

  // ---------------------------------------------------------------- running it again

  lemma {:induction false} PartNamesDiffer()
    ensures CONFIG !in {SALT, PROVIDER, KEY} && SALT !in {PROVIDER, KEY} && PROVIDER != KEY
  {
  }

  /** Three parts besides the settings are fixed by the encryption. */
  predicate HasEncryption(e: Encryption, config: Members) {
    SALT !in config && PROVIDER in config && config[PROVIDER] == e.url && KEY in config && config[KEY] == e.key
  }

  lemma {:induction false} EncryptedAgain(e: Encryption, config: Members)
    requires HasEncryption(e, config)
    ensures EncryptionOk(e, config) && Encrypted(e, config) == config
  {
  }

  lemma {:induction false} EncryptedHas(e: Encryption, config: Members)
    ensures HasEncryption(e, Encrypted(e, config))
  {
  }

  lemma {:induction false} EncryptionStays(e: Encryption, before: Members, after: Members)
    requires HasEncryption(e, before) && after - {CONFIG} == before - {CONFIG}
    ensures HasEncryption(e, after)
  {
    PartNamesDiffer();
    forall k | k in {SALT, PROVIDER, KEY} ensures k in after <==> k in before
      ensures k in after ==> after[k] == before[k]
    {
      assert k in after - {CONFIG} <==> k in before - {CONFIG};
      assert k in after ==> after[k] == (after - {CONFIG})[k];
    }
  }

  /** What the pinning step leaves is left alone by it. */
  lemma {:induction false} PinnedStable(t: Target, config: Members, materialize: bool)
    requires CONFIG in config && Settings(config).Some?
    requires
      if materialize then AwsEntries(Settings(config).value) == PinEntries(t) else PinsOk(t, Settings(config).value)
    ensures Pinned(t, config, materialize) == Some(config)
  {
    hide PinEntries, PinsOk;
    var settings := Settings(config).value;
    if materialize {
      PinnedAgain(t, settings);
    }
    assert config[CONFIG := Obj(settings)] == config;
  }

  /** What the pinning step establishes. */
  predicate SettingsPinned(t: Target, config: Members, materialize: bool) {
    && CONFIG in config && Settings(config).Some?
    && if materialize then AwsEntries(Settings(config).value) == PinEntries(t) else PinsOk(t, Settings(config).value)
  }

  lemma {:induction false} PinnedSettings(t: Target, config: Members, materialize: bool)
    requires Pinned(t, config, materialize).Some?
    ensures SettingsPinned(t, Pinned(t, config, materialize).value, materialize)
    ensures Pinned(t, config, materialize).value - {CONFIG} == config - {CONFIG}
  {
    hide PinEntries, PinsOk, AwsEntries;
    if materialize {
      PinsExact(t, config);
    }
  }

  /** The merge keeps the provider entries, hence the pins. */
  lemma {:induction false} MergeKeepsPins(t: Target, config: Members, workload: Members, materialize: bool)
    requires SettingsPinned(t, config, materialize) && WorkloadOk(Some(workload))
    requires Merged(config, Some(workload)).Some?
    ensures SettingsPinned(t, Merged(config, Some(workload)).value, materialize)
  {
  }

  /** Running the whole step on its own output changes nothing. */
  lemma {:induction false} ConfigurationIdempotent(
    t: Target, e: Encryption, config: Members, materialize: bool, workload: Option<Members>)
    requires WorkloadOk(workload) && Configured(t, e, config, materialize, workload).Some?
    ensures var out := Configured(t, e, config, materialize, workload).value;
      Configured(t, e, out, materialize, workload) == Some(out)
  {
    hide Pinned, Merged, Encrypted, EncryptionOk, HasEncryption, SettingsPinned, WorkloadOk, Settings;
    var pinned := Pinned(t, Encrypted(e, config), materialize).value;
    var out := Configured(t, e, config, materialize, workload).value;
    EncryptedHas(e, config);
    PinnedSettings(t, Encrypted(e, config), materialize);
    EncryptionStays(e, Encrypted(e, config), pinned);
    MergedStable(t, e, pinned, materialize, workload);
    assert Merged(pinned, workload) == Some(out);
    EncryptedAgain(e, out);
    Stable(t, out, materialize);
  }

  lemma {:induction false} Stable(t: Target, config: Members, materialize: bool)
    requires SettingsPinned(t, config, materialize)
    ensures Pinned(t, config, materialize) == Some(config)
  {
    hide PinEntries, PinsOk, AwsEntries;
    PinnedStable(t, config, materialize);
  }

  lemma {:induction false} MergedStable(
    t: Target, e: Encryption, pinned: Members, materialize: bool, workload: Option<Members>)
    requires WorkloadOk(workload) && SettingsPinned(t, pinned, materialize) && HasEncryption(e, pinned)
    requires Merged(pinned, workload).Some?
    ensures var out := Merged(pinned, workload).value;
      SettingsPinned(t, out, materialize) && HasEncryption(e, out) && Merged(out, workload) == Some(out)
  {
    hide PinEntries, PinsOk, AwsEntries, AwsKey, HasEncryption;
    if workload.Some? {
      MergeExtends(pinned, workload.value);
      MergeKeepsPins(t, pinned, workload.value, materialize);
      var out := Merged(pinned, workload).value;
      EncryptionStays(e, pinned, out);
      MergedAgain(out, workload.value);
    } else {
      assert Merged(pinned, workload) == Some(pinned);
    }
  }

  // ---------------------------------------------------------------- the documents' own names

  /** A setting of this field, under its full name or under the older one. */
  predicate NamesField(key: Text, field: string) {
    key == T("aws:") + T(field) || key == T("aws:config:") + T(field)
  }

  predicate IsOff(v: Value) {
    v == Bool(false) || v == Str(T("false"))
  }

  /** A provider setting has a known name and the pinned value; the account list may be JSON text. */
  predicate PinnedEntry(t: Target, key: Text, v: Value) {
    || (NamesField(key, "region") && v == Str(t.region))
    || (NamesField(key, "allowedAccountIds")
        && (if v.Str? then t.loads(v.s) == Some(Arr([Str(t.account)])) else v == Arr([Str(t.account)])))
    || (NamesField(key, "skipCredentialsValidation") && IsOff(v))
    || (NamesField(key, "skipRegionValidation") && IsOff(v))
    || (NamesField(key, "skipRequestingAccountId") && IsOff(v))
  }

  predicate OfProvider(key: Text) {
    key == T("aws") || T("aws:") <= key
  }

  /** The five settings that are written. */
  function FivePins(t: Target): Members {
    map[T("aws:") + T("region") := Str(t.region), T("aws:") + T("allowedAccountIds") := Arr([Str(t.account)]),
        T("aws:") + T("skipCredentialsValidation") := Bool(false), T("aws:") + T("skipRegionValidation") := Bool(false),
        T("aws:") + T("skipRequestingAccountId") := Bool(false)]
  }

  lemma {:induction false} FieldExactly(key: Text, field: string)
    requires AwsKey(key) && !(CONFIG_PREFIX <= T(field)) && !(AWS_PREFIX <= T(field)) && T(field) != AWS
    ensures FieldOf(key) == T(field) <==> NamesField(key, field)
  {
    var f, long := T(field), T("aws:config:");
    assert long == AWS_PREFIX + CONFIG_PREFIX;
    assert long + f == AWS_PREFIX + (CONFIG_PREFIX + f);
    assert (AWS_PREFIX + f)[|AWS_PREFIX|..] == f;
    assert (AWS_PREFIX + (CONFIG_PREFIX + f))[|AWS_PREFIX|..] == CONFIG_PREFIX + f;
    assert (CONFIG_PREFIX + f)[|CONFIG_PREFIX|..] == f;
    if AWS_PREFIX <= key {
      var rest := key[|AWS_PREFIX|..];
      assert key == AWS_PREFIX + rest;
      if CONFIG_PREFIX <= rest {
        assert rest == CONFIG_PREFIX + rest[|CONFIG_PREFIX|..];
      }
    }
  }

  lemma {:induction false} PlainField(f: Text)
    requires f == REGION || f == ACCOUNTS || f == SKIP_CREDENTIALS || f == SKIP_REGION || f == SKIP_ACCOUNT
    ensures !(CONFIG_PREFIX <= f) && !(AWS_PREFIX <= f) && f != AWS
    ensures SKIP_PREFIX <= f <==> f != REGION && f != ACCOUNTS
  {
    PinFieldsDiffer();
    assert CONFIG_PREFIX[0] == 'c' as int && AWS_PREFIX[3] == ':' as int && |AWS| == 3;
  }

  lemma {:induction false} FieldsExactly(key: Text)
    requires AwsKey(key)
    ensures FieldOf(key) == REGION <==> NamesField(key, "region")
    ensures FieldOf(key) == ACCOUNTS <==> NamesField(key, "allowedAccountIds")
    ensures FieldOf(key) == SKIP_CREDENTIALS <==> NamesField(key, "skipCredentialsValidation")
    ensures FieldOf(key) == SKIP_REGION <==> NamesField(key, "skipRegionValidation")
    ensures FieldOf(key) == SKIP_ACCOUNT <==> NamesField(key, "skipRequestingAccountId")
  {
    hide FieldOf, NamesField, AwsKey;
    PlainField(REGION);
    PlainField(ACCOUNTS);
    PlainField(SKIP_CREDENTIALS);
    PlainField(SKIP_REGION);
    PlainField(SKIP_ACCOUNT);
    FieldExactly(key, "region");
    FieldExactly(key, "allowedAccountIds");
    FieldExactly(key, "skipCredentialsValidation");
    FieldExactly(key, "skipRegionValidation");
    FieldExactly(key, "skipRequestingAccountId");
  }

  lemma {:induction false} ProviderKeyExactly(key: Text)
    ensures AwsKey(key) <==> OfProvider(key)
    ensures NamesField(key, "region") || NamesField(key, "allowedAccountIds") ==> OfProvider(key)
  {
  }

  /** Exactly which entries pass. */
  lemma {:induction false} EntryExactly(t: Target, key: Text, v: Value)
    ensures EntryOk(t, key, v) <==> (OfProvider(key) ==> PinnedEntry(t, key, v))
  {
    ProviderKeyExactly(key);
    if AwsKey(key) {
      FieldsExactly(key);
      PinFieldsDiffer();
      if FieldOf(key) in Pins(t) {
        PlainField(FieldOf(key));
      }
      hide FieldOf, NamesField, AwsKey, OfProvider;
    }
  }

  lemma {:induction false} FivePinAt(t: Target, f: Text)
    requires f in Pins(t)
    ensures AWS_PREFIX + f in FivePins(t) && FivePins(t)[AWS_PREFIX + f] == Pins(t)[f]
  {
    PinFieldsDiffer();
    assert |AWS_PREFIX + REGION| == 10 && |AWS_PREFIX + ACCOUNTS| == 21 && |AWS_PREFIX + SKIP_CREDENTIALS| == 29;
    assert |AWS_PREFIX + SKIP_REGION| == 24 && |AWS_PREFIX + SKIP_ACCOUNT| == 27;
  }

  /** The entries written are these five. */
  lemma {:induction false} PinEntriesExactly(t: Target)
    ensures PinEntries(t) == FivePins(t)
  {
    hide FieldOf, EntryOk, AwsKey;
    forall key | key in PinEntries(t) ensures key in FivePins(t) && FivePins(t)[key] == PinEntries(t)[key] {
      PinEntriesAt(t, key);
      FivePinAt(t, FieldOf(key));
    }
    forall key | key in FivePins(t) ensures key in PinEntries(t) {
      PinEntriesAt(t, key);
      assert REGION in Pins(t) && ACCOUNTS in Pins(t) && SKIP_CREDENTIALS in Pins(t);
      assert SKIP_REGION in Pins(t) && SKIP_ACCOUNT in Pins(t);
    }
  }

  // ---------------------------------------------------------------- the whole step, written out

  function Part(config: Members, name: string, default: Value): Value {
    if T(name) in config then config[T(name)] else default
  }

  /** The settings before the workload's are merged in. */
  function OwnSettings(t: Target, config: Members, materialize: bool): Members {
    var settings := Part(config, "config", Obj(map[]));
    var found := if settings.Obj? then settings.members else map[];
    if materialize then (map k | k in found && !OfProvider(k) :: found[k]) + FivePins(t) else found
  }

  /** What the document must be for the step to succeed. */
  predicate Configurable(t: Target, e: Encryption, config: Members, materialize: bool, workload: Option<Members>) {
    && !Truthy(Part(config, "encryptionsalt", Null))
    && (T("secretsprovider") in config ==> PyEq(config[T("secretsprovider")], e.url))
    && (T("encryptedkey") in config ==> PyEq(config[T("encryptedkey")], e.key))
    && Part(config, "config", Obj(map[])).Obj?
    && var found := Part(config, "config", Obj(map[])).members;
    && (forall k :: k in found && OfProvider(k) ==> PinnedEntry(t, k, found[k]))
    && (workload.Some? ==> forall k :: k in workload.value && k in OwnSettings(t, config, materialize) ==>
          PyEq(OwnSettings(t, config, materialize)[k], workload.value[k]))
  }

  /** The document the step then leaves. */
  function Prepared(t: Target, e: Encryption, config: Members, materialize: bool, workload: Option<Members>): Members {
    WithSettings(e, config, OwnSettings(t, config, materialize) + if workload.Some? then workload.value else map[])
  }

  /** The document under the stack's encryption, without its salt, and under these settings. */
  function WithSettings(e: Encryption, config: Members, settings: Members): Members {
    (config - {T("encryptionsalt")})
      + map[T("secretsprovider") := e.url, T("encryptedkey") := e.key, T("config") := Obj(settings)]
  }

  lemma {:induction false} PinsOkExactly(t: Target, settings: Members)
    ensures PinsOk(t, settings) <==>
      forall k :: k in settings && OfProvider(k) ==> PinnedEntry(t, k, settings[k])
  {
    hide EntryOk, OfProvider, PinnedEntry;
    forall k | k in settings
      ensures EntryOk(t, k, settings[k]) <==> (OfProvider(k) ==> PinnedEntry(t, k, settings[k]))
    {
      EntryExactly(t, k, settings[k]);
    }
  }

  lemma {:induction false} EncryptionExactly(e: Encryption, config: Members)
    ensures EncryptionOk(e, config) <==>
      && !Truthy(Part(config, "encryptionsalt", Null))
      && (T("secretsprovider") in config ==> PyEq(config[T("secretsprovider")], e.url))
      && (T("encryptedkey") in config ==> PyEq(config[T("encryptedkey")], e.key))
    ensures Get(Encrypted(e, config), CONFIG, Obj(map[])) == Part(config, "config", Obj(map[]))
    ensures forall m :: Encrypted(e, config)[CONFIG := Obj(m)] == WithSettings(e, config, m)
  {
    PartNamesDiffer();
    hide Truthy, PyEq;
    assert PyEq(e.url, e.url) && PyEq(e.key, e.key) by {
      Same(e.url);
      Same(e.key);
    }
  }

  lemma {:induction false} Same(v: Value)
    ensures PyEq(v, v)
  {
  }

  lemma {:induction false} NonAwsExactly(settings: Members)
    ensures NonAws(settings) == map k | k in settings && !OfProvider(k) :: settings[k]
  {
    hide AwsKey, OfProvider;
    forall k | k in settings ensures AwsKey(k) <==> OfProvider(k) {
      ProviderKeyExactly(k);
    }
  }

  /** The step succeeds exactly on configurable documents, and leaves exactly the prepared one. */
  lemma {:induction false} ConfiguredExactly(
    t: Target, e: Encryption, config: Members, materialize: bool, workload: Option<Members>)
    ensures Configured(t, e, config, materialize, workload) ==
      if Configurable(t, e, config, materialize, workload)
      then Some(Prepared(t, e, config, materialize, workload)) else None
  {
    hide PinsOk, NonAws, PinEntries, FivePins, OfProvider, PinnedEntry, PyEq, Truthy, EncryptionOk, Encrypted;
    EncryptionExactly(e, config);
    PinEntriesExactly(t);
    if Part(config, "config", Obj(map[])).Obj? {
      var found := Part(config, "config", Obj(map[])).members;
      PinsOkExactly(t, found);
      NonAwsExactly(found);
      var own := OwnSettings(t, config, materialize);
      assert own + map[] == own;
      if workload.Some? {
        var before, after := Obj(own), Obj(own + workload.value);
        assert Encrypted(e, config)[CONFIG := before][CONFIG := after] == Encrypted(e, config)[CONFIG := after];
      }
    }
  }
}
