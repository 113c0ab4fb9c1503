/** The OAuth2 key manager's decision logic over an abstract file system: a
    set of existing paths and a set of readable paths below the private
    files directory. */
module OAuthKeys {

  import opened Text

  const KEYS_DIR := "/oauth_keys"
  const PRIVATE_KEY_FILE := "/private.key"
  const PUBLIC_KEY_FILE := "/public.key"

  /** What the key manager observes. `privatePath` is the resolved
      `private://` directory (`None` when unresolvable); the configured key
      paths are Simple OAuth's settings. */
  datatype KeyEnv = KeyEnv(
    privatePath: Option<String>,
    existing: set<String>,
    readable: set<String>,
    simpleOauthInstalled: bool,
    configuredPublic: Option<String>,
    configuredPrivate: Option<String>)

  datatype KeyPaths = KeyPaths(privateKey: String, publicKey: String, dir: String)

  /** The messages `validateKeys` reports. */
  datatype Message =
    | PrivateFilesMissing
    | KeysMissing
    | PrivateKeyUnreadable
    | PublicKeyUnreadable
    | SimpleOauthUnconfigured
    | KeysValid

  datatype Validation = Validation(status: bool, messages: seq<Message>)

  /** The key directory and the two key files below the private directory,
      or nothing when the private directory is not configured. */
  function GetKeyPaths(env: KeyEnv): (r: Option<KeyPaths>)
    ensures r.None? <==> !Truthy(env.privatePath)
    ensures r.Some? ==> r.value.dir == env.privatePath.value + KEYS_DIR
    ensures r.Some? ==> r.value.privateKey == r.value.dir + PRIVATE_KEY_FILE
    ensures r.Some? ==> r.value.publicKey == r.value.dir + PUBLIC_KEY_FILE
  {
    if !Truthy(env.privatePath) then None
    else
      var dir := env.privatePath.value + KEYS_DIR;
      Some(KeyPaths(dir + PRIVATE_KEY_FILE, dir + PUBLIC_KEY_FILE, dir))
  }

  /** The two key files are different files inside the key directory. */
  lemma KeyPathsDistinct(env: KeyEnv)
    requires Truthy(env.privatePath)
    ensures var p := GetKeyPaths(env).value;
            p.privateKey != p.publicKey && p.dir < p.privateKey && p.dir < p.publicKey
  {
    var p := GetKeyPaths(env).value;
    assert p.privateKey[|p.dir| + 2] == 'r' && p.publicKey[|p.dir| + 2] == 'u';
  }

  /** With the private directory at /var/www/private the key files are
      /var/www/private/oauth_keys/private.key and .../public.key. */
  lemma KeyPathsExample(env: KeyEnv)
    requires env.privatePath == Some("/var/www/private")
    ensures GetKeyPaths(env) == Some(KeyPaths(
              "/var/www/private/oauth_keys/private.key",
              "/var/www/private/oauth_keys/public.key",
              "/var/www/private/oauth_keys"))
  {
    var dir := "/var/www/private" + KEYS_DIR;
    assert dir == "/var/www/private/oauth_keys";
    assert dir + PRIVATE_KEY_FILE == "/var/www/private/oauth_keys/private.key";
    assert dir + PUBLIC_KEY_FILE == "/var/www/private/oauth_keys/public.key";
  }

  /** Both key files exist; never true without a private directory. */
  function KeysExist(env: KeyEnv): (r: bool)
    ensures !Truthy(env.privatePath) ==> !r
    ensures Truthy(env.privatePath) ==>
              (r <==> GetKeyPaths(env).value.privateKey in env.existing && GetKeyPaths(env).value.publicKey in env.existing)
  {
    match GetKeyPaths(env)
    case None => false
    case Some(p) => p.privateKey in env.existing && p.publicKey in env.existing
  }

  /** The checks after the keys are known to exist: readability of each key
      and, when Simple OAuth is installed, that both of its key settings are
      non-empty. */
  function KeyFailures(env: KeyEnv, p: KeyPaths): (fs: seq<Message>)
    ensures PrivateKeyUnreadable in fs <==> p.privateKey !in env.readable
    ensures PublicKeyUnreadable in fs <==> p.publicKey !in env.readable
    ensures SimpleOauthUnconfigured in fs
            <==> env.simpleOauthInstalled && !(Truthy(env.configuredPublic) && Truthy(env.configuredPrivate))
    ensures KeysValid !in fs && PrivateFilesMissing !in fs && KeysMissing !in fs
  {
    (if p.privateKey !in env.readable then [PrivateKeyUnreadable] else [])
    + (if p.publicKey !in env.readable then [PublicKeyUnreadable] else [])
    + (if env.simpleOauthInstalled && !(Truthy(env.configuredPublic) && Truthy(env.configuredPrivate))
       then [SimpleOauthUnconfigured] else [])
  }

  /** Whether the keys are usable: they exist, both are readable, and
      Simple OAuth, when installed, names both key paths. */
  predicate KeysUsable(env: KeyEnv) {
    && KeysExist(env)
    && GetKeyPaths(env).value.privateKey in env.readable
    && GetKeyPaths(env).value.publicKey in env.readable
    && (env.simpleOauthInstalled ==> Truthy(env.configuredPublic) && Truthy(env.configuredPrivate))
  }

  /** Validates the keys. Without a private directory, or without the keys,
      the result is a failure with that single message and nothing else is
      checked. Otherwise every failing check adds its message; the status is
      TRUE exactly when the keys are usable, and only then is the success
      message reported (alone). There is always at least one message. */
  function ValidateKeys(env: KeyEnv): (r: Validation)
    ensures !Truthy(env.privatePath) ==> r == Validation(false, [PrivateFilesMissing])
    ensures Truthy(env.privatePath) && !KeysExist(env) ==> r == Validation(false, [KeysMissing])
    ensures r.status <==> KeysUsable(env)
    ensures r.status <==> KeysValid in r.messages
    ensures r.status ==> r.messages == [KeysValid]
    ensures KeysExist(env) && GetKeyPaths(env).value.privateKey !in env.readable ==> PrivateKeyUnreadable in r.messages
    ensures KeysExist(env) && GetKeyPaths(env).value.publicKey !in env.readable ==> PublicKeyUnreadable in r.messages
    ensures |r.messages| >= 1
  {
    match GetKeyPaths(env)
    case None => Validation(false, [PrivateFilesMissing])
    case Some(p) =>
      if !KeysExist(env) then Validation(false, [KeysMissing])
      else
        var failures := KeyFailures(env, p);
        if failures == [] then Validation(true, [KeysValid]) else Validation(false, failures)
  }

  /** What the file-system and OpenSSL steps of key generation do: whether
      the key directory could be prepared, the key pair generated, and each
      key file written. */
  datatype KeyGenEffects = KeyGenEffects(dirReady: bool, keyGenerated: bool, privateWritten: bool, publicWritten: bool)

  /** Generates a key pair. Refuses, changing nothing, without a private
      directory, when the key directory cannot be prepared, when both keys
      already exist, or when OpenSSL fails. A failed public-key write leaves
      the written private key behind. On success both keys exist and are
      readable, and Simple OAuth, when installed, is pointed at them. */
  function GenerateKeys(env: KeyEnv, fx: KeyGenEffects): (r: (bool, KeyEnv))
    ensures !Truthy(env.privatePath) ==> r == (false, env)
    ensures KeysExist(env) ==> r == (false, env)
    ensures Truthy(env.privatePath) && !fx.dirReady ==> r == (false, env)
    ensures r.0 <==> Truthy(env.privatePath) && !KeysExist(env)
                     && fx.dirReady && fx.keyGenerated && fx.privateWritten && fx.publicWritten
    ensures r.1.privatePath == env.privatePath && r.1.simpleOauthInstalled == env.simpleOauthInstalled
    ensures r.0 ==> KeysExist(r.1)
  {
    match GetKeyPaths(env)
    case None => (false, env)
    case Some(p) =>
      if !fx.dirReady then (false, env)
      else if KeysExist(env) then (false, env)
      else if !fx.keyGenerated then (false, env)
      else if !fx.privateWritten then (false, env)
      else if !fx.publicWritten then (false, env.(existing := env.existing + {p.privateKey}))
      else
        var written := env.(existing := env.existing + {p.privateKey, p.publicKey},
                            readable := env.readable + {p.privateKey, p.publicKey});
        if env.simpleOauthInstalled
        then (true, written.(configuredPublic := Some(p.publicKey), configuredPrivate := Some(p.privateKey)))
        else (true, written)
  }

  /** Freshly generated keys pass validation. */
  lemma GeneratedKeysValidate(env: KeyEnv, fx: KeyGenEffects)
    requires GenerateKeys(env, fx).0
    ensures ValidateKeys(GenerateKeys(env, fx).1).status
  {
    var p := GetKeyPaths(env).value;
    assert GetKeyPaths(GenerateKeys(env, fx).1) == Some(p);
  }

  /** Deletes both key files (after the backup copy) and generates a new
      pair; refuses without a private directory. */
  function RegenerateKeys(env: KeyEnv, fx: KeyGenEffects): (r: (bool, KeyEnv))
    ensures !Truthy(env.privatePath) ==> r == (false, env)
    ensures r.0 <==> Truthy(env.privatePath) && fx.dirReady && fx.keyGenerated && fx.privateWritten && fx.publicWritten
    ensures r.0 ==> KeysExist(r.1)
  {
    match GetKeyPaths(env)
    case None => (false, env)
    case Some(p) =>
      KeyPathsDistinct(env);
      GenerateKeys(env.(existing := env.existing - {p.privateKey, p.publicKey}), fx)
  }

  /** Existing keys make generation refuse, but regeneration replaces them
      when every step succeeds. */
  lemma RegenerateReplacesExistingKeys(env: KeyEnv)
    requires KeysExist(env)
    ensures !GenerateKeys(env, KeyGenEffects(true, true, true, true)).0
    ensures RegenerateKeys(env, KeyGenEffects(true, true, true, true)).0
  {
  }
}
