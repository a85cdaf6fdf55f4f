/** The API key store (src/store/apiKeyStore.ts): the selected provider, its key and whether
    that key has been validated. Build-time keys (`VITE_*_API_KEY`) are the parameter `env`;
    the session storage entry is part of the state; the validation request is a parameter
    giving what the request produced. */
module ApiKeys {
  import opened Results
  import opened Domain
  import Notifications

  /** A `StoredKeys` object: a provider with no entry has no key (`undefined`). */
  type KeyMap = map<Provider, string>

  /** The session storage entry `juicer-api-keys`: absent (or empty), unreadable JSON, or a
      parsed key object. */
  datatype Storage = Missing | Malformed | Parsed(keys: KeyMap)

  /** The key of `p`, if the map has one. */
  function KeyOf(m: KeyMap, p: Provider): Option<string>
  {
    if p in m then Some(m[p]) else None
  }

  /** A key JavaScript treats as true: present and not the empty string. */
  predicate Truthy(k: Option<string>)
  {
    k.Some? && k.value != ""
  }

  /** `getStoredKeys()`: the build-time keys overridden by the user's; `{}` when the stored
      entry cannot be parsed. */
  function GetStoredKeys(env: KeyMap, storage: Storage): (r: KeyMap)
    ensures storage.Malformed? ==> r == map[]
    ensures storage.Missing? ==> r == env
    ensures storage.Parsed? ==> forall p :: KeyOf(r, p) == (if p in storage.keys then KeyOf(storage.keys, p) else KeyOf(env, p))
  {
    match storage
    case Missing => env
    case Malformed => map[]
    case Parsed(user) => env + user
  }

  /** `storeKeys(keys)`: what is written back, the keys that are non-empty and differ from
      that provider's build-time key. */
  function StoreKeys(env: KeyMap, keys: KeyMap): (r: KeyMap)
    ensures forall p :: p in r <==> p in keys && keys[p] != "" && KeyOf(env, p) != Some(keys[p])
    ensures forall p :: p in r ==> r[p] == keys[p]
  {
    map p | p in keys && keys[p] != "" && KeyOf(env, p) != Some(keys[p]) :: keys[p]
  }

  /** Storing and reading back gives every non-empty key that was stored. A key equal to the
      build-time one is not written, but reading falls back to the same value. */
  lemma StoreThenGet(env: KeyMap, keys: KeyMap, p: Provider)
    requires Truthy(KeyOf(keys, p))
    ensures KeyOf(GetStoredKeys(env, Parsed(StoreKeys(env, keys))), p) == KeyOf(keys, p)
  {
  }

  /** A build-time key is never copied into session storage. */
  lemma EnvKeysNotStored(env: KeyMap, keys: KeyMap, p: Provider)
    requires p in env && KeyOf(keys, p) == KeyOf(env, p)
    ensures p !in StoreKeys(env, keys)
  {
  }

  /** What the validation request produced: a response with its status, or a thrown fetch. */
  datatype ValidationResponse = Reached(status: int) | FetchThrew

  /** `response.ok`. */
  predicate HttpOk(status: int)
  {
    200 <= status <= 299
  }

  /** `validateApiKey(key, provider)`. Hugging Face accepts 200 and 401, since its model
      endpoint answers 401 to a real key without model access; the others want a 2xx. */
  function ValidateApiKey(p: Provider, resp: ValidationResponse): (valid: bool)
    ensures resp.FetchThrew? ==> !valid
    ensures resp.Reached? && p == HuggingFace ==> (valid <==> resp.status == 200 || resp.status == 401)
    ensures resp.Reached? && p != HuggingFace ==> (valid <==> HttpOk(resp.status))
  {
    match resp
    case FetchThrew => false
    case Reached(status) =>
      if p == HuggingFace then status == 200 || status == 401 else HttpOk(status)
  }

  /** The rules differ only on 401 and on the 2xx codes other than 200. */
  lemma ValidationRulesDiffer(status: int)
    ensures ValidateApiKey(HuggingFace, Reached(status)) != ValidateApiKey(Groq, Reached(status))
            <==> status == 401 || (HttpOk(status) && status != 200)
    ensures ValidateApiKey(Groq, Reached(status)) == ValidateApiKey(OpenAI, Reached(status))
  {
  }

  datatype KeyState = KeyState(apiKey: Option<string>, provider: Provider, isValidated: bool,
                               isValidating: bool, storage: Storage)

  /** The store's starting value: no key, Groq selected. */
  function InitialKeys(storage: Storage): (s: KeyState)
    ensures s.provider == Groq && s.apiKey.None? && !s.isValidated && !s.isValidating
  {
    KeyState(None, Groq, false, false, storage)
  }

  /** `setApiKey(key)` from start to end, `resp` being the validation request's result. */
  function SetApiKey(s: KeyState, env: KeyMap, key: string, resp: ValidationResponse)
    : (r: (KeyState, seq<Notifications.Notice>))
    ensures r.0.provider == s.provider && !r.0.isValidating
    ensures ValidateApiKey(s.provider, resp) ==> r.0.apiKey == Some(key) && r.0.isValidated
    ensures !ValidateApiKey(s.provider, resp) ==> r.0.apiKey.None? && !r.0.isValidated && r.0.storage == s.storage
    ensures ValidateApiKey(s.provider, resp) && KeyOf(env, s.provider) == Some(key) ==> r.0.storage == s.storage
    ensures ValidateApiKey(s.provider, resp) && KeyOf(env, s.provider) != Some(key) ==>
              r.0.storage == Parsed(StoreKeys(env, GetStoredKeys(env, s.storage)[s.provider := key]))
    ensures |r.1| == 2 && r.1[0].kind == Notifications.Info
    ensures r.1[1].kind == (if ValidateApiKey(s.provider, resp) then Notifications.Success else Notifications.Error)
  {
    var p := s.provider;
    var validating := Notifications.Notice(Notifications.Info, "Validating " + ProviderLabel(p) + " API key...");
    if ValidateApiKey(p, resp) then
      var storage := if KeyOf(env, p) != Some(key) then Parsed(StoreKeys(env, GetStoredKeys(env, s.storage)[p := key]))
                     else s.storage;
      (s.(apiKey := Some(key), isValidated := true, isValidating := false, storage := storage),
       [validating, Notifications.Notice(Notifications.Success, ProviderLabel(p) + " API key validated successfully")])
    else
      (s.(apiKey := None, isValidated := false, isValidating := false),
       [validating, Notifications.Notice(Notifications.Error, "Invalid " + ProviderLabel(p) + " API key")])
  }

  /** A user key accepted by the validator can be read back from storage for its provider. */
  lemma ValidKeyIsRemembered(s: KeyState, env: KeyMap, key: string, resp: ValidationResponse)
    requires ValidateApiKey(s.provider, resp) && key != "" && KeyOf(env, s.provider) != Some(key)
    ensures KeyOf(GetStoredKeys(env, SetApiKey(s, env, key, resp).0.storage), s.provider) == Some(key)
  {
    StoreThenGet(env, GetStoredKeys(env, s.storage)[s.provider := key], s.provider);
  }

  /** Accepting the build-time key writes nothing, so a user key stored earlier for the same
      provider is still the one read back. */
  lemma EnvKeyLeavesStoredKey(s: KeyState, env: KeyMap, key: string, resp: ValidationResponse)
    requires ValidateApiKey(s.provider, resp) && KeyOf(env, s.provider) == Some(key)
    requires s.storage.Parsed? && s.provider in s.storage.keys
    ensures KeyOf(GetStoredKeys(env, SetApiKey(s, env, key, resp).0.storage), s.provider)
            == Some(s.storage.keys[s.provider])
  {
  }

  /** The synchronous part of `setProvider(p)`: the provider switched and the remembered key
      (or none) installed as validated; the key to re-validate is returned alongside. */
  function SwitchProvider(s: KeyState, env: KeyMap, p: Provider): (r: (KeyState, Option<string>))
    ensures r.0.provider == p && r.0.storage == s.storage && r.0.isValidating == s.isValidating
    ensures var saved := KeyOf(GetStoredKeys(env, s.storage), p);
            (Truthy(saved) ==> r.0.apiKey == saved && r.0.isValidated && r.1 == saved)
            && (!Truthy(saved) ==> r.0.apiKey.None? && !r.0.isValidated && r.1.None?)
  {
    var saved := KeyOf(GetStoredKeys(env, s.storage), p);
    if Truthy(saved) then (s.(provider := p, apiKey := saved, isValidated := true), saved)
    else (s.(provider := p, apiKey := None, isValidated := false), None)
  }

  /** `setProvider(p)` once the re-validation it starts has finished. */
  function SetProvider(s: KeyState, env: KeyMap, p: Provider, resp: ValidationResponse)
    : (r: (KeyState, seq<Notifications.Notice>))
    ensures r.0.provider == p
    ensures Truthy(KeyOf(GetStoredKeys(env, s.storage), p)) ==>
              r.0 == SetApiKey(SwitchProvider(s, env, p).0, env, KeyOf(GetStoredKeys(env, s.storage), p).value, resp).0
    ensures !Truthy(KeyOf(GetStoredKeys(env, s.storage), p)) ==> r.0 == SwitchProvider(s, env, p).0
  {
    var (switched, revalidate) := SwitchProvider(s, env, p);
    var switchedNotice := Notifications.Notice(Notifications.Info, "Switched to " + ProviderLabel(p) + " API");
    if revalidate.Some? then
      var (done, notices) := SetApiKey(switched, env, revalidate.value, resp);
      (done, [notices[0], switchedNotice] + notices[1..])
    else (switched, [switchedNotice])
  }

  /** `clearApiKey()`: does nothing unless the current key is a user key; otherwise forgets it
      in storage and falls back to the build-time key. */
  function ClearApiKey(s: KeyState, env: KeyMap): (r: (KeyState, seq<Notifications.Notice>))
    ensures !Truthy(s.apiKey) || s.apiKey == KeyOf(env, s.provider) ==> r == (s, [])
    ensures Truthy(s.apiKey) && s.apiKey != KeyOf(env, s.provider) ==>
              var envKey := KeyOf(env, s.provider);
              r.0.provider == s.provider && r.0.isValidating == s.isValidating
              && r.0.apiKey == (if Truthy(envKey) then envKey else None)
              && r.0.isValidated == Truthy(envKey)
              && r.0.storage == Parsed(StoreKeys(env, GetStoredKeys(env, s.storage) - {s.provider}))
              && |r.1| == 1
  {
    var p := s.provider;
    var envKey := KeyOf(env, p);
    if Truthy(s.apiKey) && s.apiKey != envKey then
      var storage := Parsed(StoreKeys(env, GetStoredKeys(env, s.storage) - {p}));
      (s.(apiKey := if Truthy(envKey) then envKey else None, isValidated := Truthy(envKey), storage := storage),
       [Notifications.Notice(Notifications.Info, ProviderLabel(p) + " API key cleared")])
    else (s, [])
  }

  /** After clearing a user key, reading storage gives the provider's build-time key, or none. */
  lemma ClearForgetsUserKey(s: KeyState, env: KeyMap)
    requires Truthy(s.apiKey) && s.apiKey != KeyOf(env, s.provider)
    ensures KeyOf(GetStoredKeys(env, ClearApiKey(s, env).0.storage), s.provider) == KeyOf(env, s.provider)
  {
  }

  /** Clearing twice is clearing once. */
  lemma ClearIdempotent(s: KeyState, env: KeyMap)
    ensures ClearApiKey(ClearApiKey(s, env).0, env).0 == ClearApiKey(s, env).0
  {
  }

  /** `initializeFromStorage()`: a remembered key for the current provider is installed and
      re-validated through `setApiKey`, with its notices; without one nothing happens. The key
      stays remembered whatever the validator answers. */
  function InitializeFromStorage(s: KeyState, env: KeyMap, resp: ValidationResponse)
    : (r: (KeyState, seq<Notifications.Notice>))
    ensures var saved := KeyOf(GetStoredKeys(env, s.storage), s.provider);
            (!Truthy(saved) ==> r == (s, []))
            && (Truthy(saved) ==> r == SetApiKey(s.(apiKey := saved), env, saved.value, resp))
    ensures r.0.provider == s.provider
    ensures var saved := KeyOf(GetStoredKeys(env, s.storage), s.provider);
            Truthy(saved) && ValidateApiKey(s.provider, resp) ==> r.0.apiKey == saved && r.0.isValidated
    ensures var saved := KeyOf(GetStoredKeys(env, s.storage), s.provider);
            Truthy(saved) && !ValidateApiKey(s.provider, resp) ==> r.0.apiKey.None? && !r.0.isValidated
    ensures KeyOf(GetStoredKeys(env, r.0.storage), s.provider) == KeyOf(GetStoredKeys(env, s.storage), s.provider)
  {
    var saved := KeyOf(GetStoredKeys(env, s.storage), s.provider);
    if Truthy(saved) then
      var r := SetApiKey(s.(apiKey := saved), env, saved.value, resp);
      assert KeyOf(GetStoredKeys(env, r.0.storage), s.provider) == saved by {
        if ValidateApiKey(s.provider, resp) && KeyOf(env, s.provider) != saved {
          ValidKeyIsRemembered(s.(apiKey := saved), env, saved.value, resp);
        }
      }
      r
    else (s, [])
  }

  /** Re-reading storage a second time, with the validator answering the same, changes nothing
      more: the state after two initialisations is the state after one. */
  lemma InitializeIdempotent(s: KeyState, env: KeyMap, resp: ValidationResponse)
    ensures InitializeFromStorage(InitializeFromStorage(s, env, resp).0, env, resp).0
            == InitializeFromStorage(s, env, resp).0
  {
    var saved := KeyOf(GetStoredKeys(env, s.storage), s.provider);
    if Truthy(saved) && ValidateApiKey(s.provider, resp) && KeyOf(env, s.provider) != saved {
      RestoreSame(env, GetStoredKeys(env, s.storage)[s.provider := saved.value], s.provider);
    }
  }

  /** Writing back what was just read from storage, with one key set to the value it already
      has, writes the same entry again. */
  lemma RestoreSame(env: KeyMap, keys: KeyMap, p: Provider)
    requires p in keys
    ensures StoreKeys(env, GetStoredKeys(env, Parsed(StoreKeys(env, keys)))[p := keys[p]]) == StoreKeys(env, keys)
  {
    var again := GetStoredKeys(env, Parsed(StoreKeys(env, keys)))[p := keys[p]];
    forall q ensures q in StoreKeys(env, again) <==> q in StoreKeys(env, keys) {
    }
  }
}
