/**
 * `UGenSecureKey`: where the plugin's clients get their API keys. The
 * current version keeps one key per organisation and prefers a non-empty
 * `PS_<ORG>APIKEY` environment variable while environment lookup is on;
 * the legacy version keeps a single OpenAI key. The process environment
 * becomes a parameter.
 */
module SecureKey {
  import opened Wrappers

  /** `EGenAIOrgs`. */
  datatype Org = OpenAI | DeepSeek | Anthropic | Meta | Google | XAI | Unknown

  /** `GetEnvironmentVariable`: the variable's value, `""` when it is unset. */
  type Environment = string -> string

  /** The static state: the stored keys and `bUseApiKeyFromEnv`. */
  datatype KeyStore = KeyStore(keys: map<Org, string>, useEnv: bool)

  /** The state at load: no keys, environment lookup on. */
  const InitialStore := KeyStore(map[], true)

  /** The environment variable consulted for each organisation; `Unknown` has none. */
  function EnvVarName(org: Org): (r: Option<string>)
    ensures r.None? <==> org == Unknown
    ensures r.Some? ==> |r.value| > 9 && r.value[..3] == "PS_" && r.value[|r.value| - 6..] == "APIKEY"
  {
    match org
    case OpenAI => Some("PS_OPENAIAPIKEY")
    case DeepSeek => Some("PS_DEEPSEEKAPIKEY")
    case Anthropic => Some("PS_ANTHROPICAPIKEY")
    case Meta => Some("PS_METAAPIKEY")
    case Google => Some("PS_GOOGLEAPIKEY")
    case XAI => Some("PS_XAIAPIKEY")
    case Unknown => None
  }

  /** Each known organisation reads its own variable. */
  lemma EnvVarNamesDistinct(a: Org, b: Org)
    requires a != b && a != Unknown && b != Unknown
    ensures EnvVarName(a) != EnvVarName(b)
  {
  }

  /** `SetGenAIApiKeyRuntime`: stores (or replaces) the organisation's key. */
  function SetKey(store: KeyStore, org: Org, key: string): (r: KeyStore)
    ensures r.useEnv == store.useEnv
    ensures org in r.keys && r.keys[org] == key
    ensures forall o :: o != org ==> (o in r.keys <==> o in store.keys)
    ensures forall o :: o != org && o in store.keys ==> r.keys[o] == store.keys[o]
  {
    store.(keys := store.keys[org := key])
  }

  /** `SetUseApiKeyFromEnvironmentVars`. */
  function SetUseEnv(store: KeyStore, useEnv: bool): (r: KeyStore)
    ensures r.useEnv == useEnv && r.keys == store.keys
  {
    store.(useEnv := useEnv)
  }

  /** The stored key, `""` when none was set. */
  function StoredKey(store: KeyStore, org: Org): (r: string)
    ensures org !in store.keys ==> r == ""
    ensures org in store.keys ==> r == store.keys[org]
  {
    if org in store.keys then store.keys[org] else ""
  }

  /**
   * `GetGenerativeAIApiKey(Org)`: with environment lookup on, `Unknown`
   * gives `""` and a known organisation's non-empty variable wins;
   * otherwise the stored key.
   */
  function GetKey(store: KeyStore, org: Org, env: Environment): (r: string)
    ensures !store.useEnv ==> r == StoredKey(store, org)
    ensures store.useEnv && org == Unknown ==> r == ""
    ensures store.useEnv && org != Unknown && env(EnvVarName(org).value) != "" ==> r == env(EnvVarName(org).value)
    ensures store.useEnv && org != Unknown && env(EnvVarName(org).value) == "" ==> r == StoredKey(store, org)
  {
    if store.useEnv then
      match EnvVarName(org)
      case None => ""
      case Some(name) => if env(name) != "" then env(name) else StoredKey(store, org)
    else StoredKey(store, org)
  }

  /** A key that was set is read back when the environment does not supply one. */
  lemma SetThenGet(store: KeyStore, org: Org, key: string, env: Environment)
    requires !store.useEnv || (org != Unknown && env(EnvVarName(org).value) == "")
    ensures GetKey(SetKey(store, org, key), org, env) == key
  {
  }

  /** A second set replaces the first. */
  lemma SecondSetOverwrites(store: KeyStore, org: Org, first: string, second: string, env: Environment)
    ensures GetKey(SetKey(SetKey(store, org, first), org, second), org, env) == GetKey(SetKey(store, org, second), org, env)
  {
    assert SetKey(SetKey(store, org, first), org, second) == SetKey(store, org, second);
  }

  /** Setting one organisation's key leaves every other organisation's answer alone. */
  lemma SetKeyIsLocal(store: KeyStore, org: Org, other: Org, key: string, env: Environment)
    requires other != org
    ensures GetKey(SetKey(store, org, key), other, env) == GetKey(store, other, env)
  {
  }

  /** With lookup on, a non-empty variable beats any stored key. */
  lemma EnvironmentWins(store: KeyStore, org: Org, key: string, env: Environment)
    requires store.useEnv && org != Unknown && env(EnvVarName(org).value) != ""
    ensures GetKey(SetKey(store, org, key), org, env) == env(EnvVarName(org).value)
  {
  }

  /** With lookup on (the initial state), a key stored for `Unknown` is never returned. */
  lemma UnknownIgnoresStoredKey(key: string, env: Environment)
    ensures GetKey(SetKey(InitialStore, Unknown, key), Unknown, env) == ""
  {
  }

  // ---------------------------------------------------------------------
  // The legacy single-key version
  // ---------------------------------------------------------------------

  /** The legacy statics: one key (initially empty) and the flag (initially on). */
  datatype LegacyStore = LegacyStore(key: string, useEnv: bool)

  const InitialLegacyStore := LegacyStore("", true)

  /** The legacy `SetGenerativeAIApiKey`. */
  function SetLegacyKey(store: LegacyStore, key: string): (r: LegacyStore)
    ensures r.key == key && r.useEnv == store.useEnv
  {
    store.(key := key)
  }

  /** The legacy `GetGenerativeAIApiKey`: a non-empty `PS_OPENAIAPIKEY` while lookup is on, else the stored key. */
  function GetLegacyKey(store: LegacyStore, env: Environment): (r: string)
    ensures store.useEnv && env("PS_OPENAIAPIKEY") != "" ==> r == env("PS_OPENAIAPIKEY")
    ensures !(store.useEnv && env("PS_OPENAIAPIKEY") != "") ==> r == store.key
  {
    if store.useEnv then
      var fromEnv := env("PS_OPENAIAPIKEY");
      if fromEnv == "" then store.key else fromEnv
    else store.key
  }

  /** The legacy store answers as the current one does for OpenAI, holding the same key. */
  lemma LegacyAgreesWithOpenAI(store: LegacyStore, env: Environment)
    ensures GetLegacyKey(store, env) == GetKey(KeyStore(map[OpenAI := store.key], store.useEnv), OpenAI, env)
  {
  }

  /** Both versions start with no key: without the variable the answer is empty. */
  lemma InitialStoresAgree(env: Environment)
    requires env("PS_OPENAIAPIKEY") == ""
    ensures GetLegacyKey(InitialLegacyStore, env) == "" && GetKey(InitialStore, OpenAI, env) == ""
  {
  }
}
