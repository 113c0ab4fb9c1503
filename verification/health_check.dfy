/** The health-check manager: the nine setup checks with their status,
    the completion percentage over them, and the auto-fix actions. */
module HealthCheck {

  import opened Text
  import opened Configuration
  import OAuthKeys
  import Consumers
  import Webhooks

  const COMPLETE := "complete"
  const INCOMPLETE := "incomplete"
  const WARNING := "warning"
  const OPTIONAL := "optional"

  const CRITICAL := "critical"
  const HIGH := "high"
  const MEDIUM := "medium"

  /** The check keys, in the order the checks are reported. */
  const JSONAPI := "jsonapi"
  const CONSUMERS := "consumers"
  const SIMPLE_OAUTH := "simple_oauth"
  const PRIVATE_FILES := "private_files"
  const OAUTH_KEYS := "oauth_keys"
  const CONSUMER_CREATED := "consumer_created"
  const CORS := "cors"
  const PREVIEW_URLS := "preview_urls"
  const WEBHOOKS := "webhooks"
  const CHECK_KEYS: seq<String> := [
    JSONAPI, CONSUMERS, SIMPLE_OAUTH, PRIVATE_FILES, OAUTH_KEYS,
    CONSUMER_CREATED, CORS, PREVIEW_URLS, WEBHOOKS]

  /** The actions `executeAction` carries out. */
  const ENABLE_JSONAPI := "enable_jsonapi"
  const ENABLE_CONSUMERS := "enable_consumers"
  const ENABLE_SIMPLE_OAUTH := "enable_simple_oauth"
  const GENERATE_OAUTH_KEYS := "generate_oauth_keys"
  const ENABLE_CORS := "enable_cors"
  predicate FixAction(action: String) {
    || action == ENABLE_JSONAPI || action == ENABLE_CONSUMERS || action == ENABLE_SIMPLE_OAUTH
    || action == GENERATE_OAUTH_KEYS || action == ENABLE_CORS
  }

  /** The CORS origins the auto-fix installs when none are configured. */
  const DEFAULT_ORIGINS: seq<String> := ["http://localhost:3000", "http://localhost:4321"]

  /** One check as the checklist consumes it. `action` is `None` for checks
      without one; `priority` is `None` when a check names none. */
  datatype Check = Check(key: String, status: String, autoFix: bool, action: Option<String>, priority: Option<String>)

  /** Everything the checks read: installed modules, the key environment
      (which also holds the private directory), the consumer storage and
      the result of its listing query, the settings, and the webhook store. */
  datatype Site = Site(
    modules: set<String>,
    keys: OAuthKeys.KeyEnv,
    consumers: Consumers.ConsumerStore,
    consumerQuery: Option<seq<String>>,
    settings: Settings,
    webhooks: Webhooks.Store)

  /** The four statuses a check can have. */
  predicate KnownStatus(s: String) {
    s == COMPLETE || s == INCOMPLETE || s == WARNING || s == OPTIONAL
  }

  /** A check as every check manager check is: reported under `key`, with a
      known status and a priority, and auto-fixable only while incomplete
      and with an action `executeAction` carries out. */
  predicate WellFormed(c: Check, key: String) {
    && c.key == key
    && KnownStatus(c.status)
    && c.priority.Some?
    && (c.priority.value == CRITICAL || c.priority.value == HIGH || c.priority.value == MEDIUM)
    && (c.autoFix ==> c.status != COMPLETE && c.action.Some? && FixAction(c.action.value))
  }

  /** A required module's check: complete iff the module is installed, and
      auto-fixable exactly when it is not. */
  function ModuleCheck(site: Site, name: String, action: String): (c: Check)
    ensures c.status == COMPLETE <==> name in site.modules
    ensures c.status != COMPLETE ==> c.status == INCOMPLETE
    ensures c.autoFix <==> name !in site.modules
    ensures c.key == name && c.action == Some(action) && c.priority == Some(CRITICAL)
    ensures FixAction(action) ==> WellFormed(c, name)
  {
    var enabled := name in site.modules;
    Check(name, if enabled then COMPLETE else INCOMPLETE, !enabled, Some(action), Some(CRITICAL))
  }

  /** Complete iff the private directory resolves; never auto-fixable. */
  function CheckPrivateFiles(site: Site): (c: Check)
    ensures c.status == COMPLETE <==> Truthy(site.keys.privatePath)
    ensures c.status != COMPLETE ==> c.status == INCOMPLETE
    ensures !c.autoFix && c.action.None?
    ensures WellFormed(c, PRIVATE_FILES)
  {
    var configured := Truthy(site.keys.privatePath);
    Check(PRIVATE_FILES, if configured then COMPLETE else INCOMPLETE, false, None, Some(CRITICAL))
  }

  /** Complete iff the keys exist and validate; auto-fixable exactly when
      they do not exist. */
  function CheckOAuthKeys(site: Site): (c: Check)
    ensures c.status == COMPLETE <==> OAuthKeys.KeysExist(site.keys) && OAuthKeys.ValidateKeys(site.keys).status
    ensures c.status != COMPLETE ==> c.status == INCOMPLETE
    ensures c.autoFix <==> !OAuthKeys.KeysExist(site.keys)
    ensures WellFormed(c, OAUTH_KEYS)
  {
    var present := OAuthKeys.KeysExist(site.keys);
    var valid := present && OAuthKeys.ValidateKeys(site.keys).status;
    Check(OAUTH_KEYS, if valid then COMPLETE else INCOMPLETE, !present, Some(GENERATE_OAUTH_KEYS), Some(CRITICAL))
  }

  /** The key check is complete exactly when key validation succeeds: a
      successful validation already implies that the keys exist. */
  lemma OAuthKeysCheckMatchesValidation(site: Site)
    ensures CheckOAuthKeys(site).status == COMPLETE <==> OAuthKeys.ValidateKeys(site.keys).status
  {
  }

  /** Complete iff the consumer listing is non-empty. */
  function CheckConsumerCreated(site: Site): (c: Check)
    ensures c.status == COMPLETE <==> Consumers.GetConsumers(site.consumers, site.consumerQuery) != []
    ensures c.status != COMPLETE ==> c.status == INCOMPLETE
    ensures !c.autoFix && c.priority == Some(HIGH)
    ensures WellFormed(c, CONSUMER_CREATED)
  {
    var has := Consumers.GetConsumers(site.consumers, site.consumerQuery) != [];
    Check(CONSUMER_CREATED, if has then COMPLETE else INCOMPLETE, false, Some("create_consumer"), Some(HIGH))
  }

  /** Complete iff CORS is enabled with at least one allowed origin, else a
      warning; auto-fixable exactly when CORS is disabled. */
  function CheckCors(site: Site): (c: Check)
    ensures c.status == COMPLETE <==> site.settings.enableCors && GetAllowedOrigins(site.settings) != []
    ensures c.status != COMPLETE ==> c.status == WARNING
    ensures c.autoFix <==> !site.settings.enableCors
    ensures WellFormed(c, CORS)
  {
    var ok := site.settings.enableCors && GetAllowedOrigins(site.settings) != [];
    Check(CORS, if ok then COMPLETE else WARNING, !site.settings.enableCors, Some(ENABLE_CORS), Some(HIGH))
  }

  /** Complete iff a default preview URL or a framework preview URL is set,
      else optional. */
  function CheckPreviewUrls(site: Site): (c: Check)
    ensures c.status == COMPLETE <==> Truthy(site.settings.defaultPreviewUrl) || site.settings.previewUrls != map[]
    ensures c.status != COMPLETE ==> c.status == OPTIONAL
    ensures !c.autoFix && c.priority == Some(MEDIUM)
    ensures WellFormed(c, PREVIEW_URLS)
  {
    var configured := Truthy(site.settings.defaultPreviewUrl) || site.settings.previewUrls != map[];
    Check(PREVIEW_URLS, if configured then COMPLETE else OPTIONAL, false, Some("configure_preview"), Some(MEDIUM))
  }

  /** Complete iff a webhook is registered (enabled or not), else optional. */
  function CheckWebhooks(site: Site): (c: Check)
    ensures c.status == COMPLETE <==> site.webhooks.order != []
    ensures c.status != COMPLETE ==> c.status == OPTIONAL
    ensures !c.autoFix && c.priority == Some(MEDIUM)
    ensures WellFormed(c, WEBHOOKS)
  {
    var configured := site.webhooks.order != [];
    Check(WEBHOOKS, if configured then COMPLETE else OPTIONAL, false, Some("configure_webhooks"), Some(MEDIUM))
  }

  /** All nine checks, keyed and ordered as `CHECK_KEYS`. */
  function GetAllChecks(site: Site): (cs: seq<Check>)
    ensures |cs| == |CHECK_KEYS| == 9
    ensures forall i :: 0 <= i < |cs| ==> WellFormed(cs[i], CHECK_KEYS[i])
  {
    var c0 := ModuleCheck(site, JSONAPI, ENABLE_JSONAPI);
    var c1 := ModuleCheck(site, CONSUMERS, ENABLE_CONSUMERS);
    var c2 := ModuleCheck(site, SIMPLE_OAUTH, ENABLE_SIMPLE_OAUTH);
    var c3 := CheckPrivateFiles(site);
    var c4 := CheckOAuthKeys(site);
    var c5 := CheckConsumerCreated(site);
    var c6 := CheckCors(site);
    var c7 := CheckPreviewUrls(site);
    var c8 := CheckWebhooks(site);
    var cs := [c0, c1, c2, c3, c4, c5, c6, c7, c8];
    forall i | 0 <= i < 9 ensures WellFormed(cs[i], CHECK_KEYS[i]) {
      if i < 3 { } else if i < 6 { } else { }
    }
    cs
  }

  /** The optional features never hold up setup: their checks are only ever
      complete or optional. */
  lemma OptionalFeaturesStatus(site: Site)
    ensures var cs := GetAllChecks(site);
            && (cs[7].status == COMPLETE || cs[7].status == OPTIONAL)
            && (cs[8].status == COMPLETE || cs[8].status == OPTIONAL)
  {
  }

  /** Whether a check is complete. */
  predicate IsComplete(c: Check) {
    c.status == COMPLETE
  }

  /** `round(100 * complete / total)` in integers: rounding half up, which is
      PHP's rounding for non-negative values; 0 for no checks. */
  function CompletionPercentage(cs: seq<Check>): (p: int)
    ensures 0 <= p <= 100
    ensures cs != [] && Count(cs, IsComplete) == |cs| ==> p == 100
    ensures Count(cs, IsComplete) == 0 ==> p == 0
  {
    var total := |cs|;
    var done := Count(cs, IsComplete);
    if total == 0 then 0
    else
      var p := (200 * done + total) / (2 * total);
      DivAtLeast(200 * done + total, 2 * total, 0);
      DivBelow(200 * done + total, 2 * total, 101);
      if done == total then DivAtLeast(200 * done + total, 2 * total, 100); p
      else if done == 0 then DivBelow(200 * done + total, 2 * total, 1); p
      else p
  }

  /** For fewer than 200 checks (there are nine) the percentage is 100 only
      when every check is complete, and 0 only when none is. */
  lemma {:induction false} CompletionExtremes(cs: seq<Check>)
    requires 0 < |cs| < 200
    ensures CompletionPercentage(cs) == 100 <==> Count(cs, IsComplete) == |cs|
    ensures CompletionPercentage(cs) == 0 <==> Count(cs, IsComplete) == 0
  {
    var t := |cs|;
    var c := Count(cs, IsComplete);
    if c < t {
      assert 200 * c + t <= 200 * t - 200 + t;
      assert 200 * c + t < 200 * t;
      DivBelow(200 * c + t, 2 * t, 100);
    }
    if c > 0 {
      assert 200 * c + t >= 2 * t;
      DivAtLeast(200 * c + t, 2 * t, 1);
    }
  }

  /** Multiplying by a natural number keeps the order. */
  lemma {:induction false} MulMono(b: nat, x: int, y: int)
    requires x <= y
    ensures b * x <= b * y
  {
    if b > 0 {
      MulMono(b - 1, x, y);
      assert b * x == (b - 1) * x + x;
      assert b * y == (b - 1) * y + y;
    }
  }

  lemma DivBelow(a: int, b: int, q: int)
    requires 0 <= a && 0 < b && a < b * q
    ensures a / b < q
  {
    var d := a / b;
    assert a == b * d + a % b && 0 <= a % b;
    if d >= q {
      MulMono(b, q, d);
    }
  }

  lemma DivAtLeast(a: int, b: int, q: int)
    requires 0 < b && b * q <= a
    ensures a / b >= q
  {
    var d := a / b;
    assert a == b * d + a % b && a % b < b;
    if d < q {
      MulMono(b, d, q - 1);
    }
  }

  /** The site's completion is 100 exactly when all nine checks are complete. */
  lemma SiteCompletion(site: Site)
    ensures CompletionPercentage(GetAllChecks(site)) == 100
            <==> forall i :: 0 <= i < 9 ==> GetAllChecks(site)[i].status == COMPLETE
  {
    var cs := GetAllChecks(site);
    CompletionExtremes(cs);
    FilterCount(cs, IsComplete);
    FilterKeepsAll(cs, IsComplete);
  }

  /** What an auto-fix reports. */
  datatype ActionResult = ActionResult(success: bool, message: String)

  /** What the module installer does when asked to install a module. It
      installs the module's missing dependencies along with it, so a
      successful install reports the set of modules it added besides the
      one asked for. */
  datatype InstallOutcome = Installed(dependencies: set<String>) | InstallRefused | InstallError(message: String)

  /** Enables a module: success without installing when it is already
      enabled; otherwise the installer's outcome decides, and a successful
      install adds the module and the dependencies installed with it. A
      failure leaves the modules as they were, and only the modules ever
      change. */
  function EnableModule(site: Site, name: String, title: String, outcome: InstallOutcome): (r: (ActionResult, Site))
    ensures name in site.modules ==> r == (ActionResult(true, title + " is already enabled."), site)
    ensures r.0.success <==> name in site.modules || outcome.Installed?
    ensures r.1 == site.(modules := r.1.modules)
    ensures r.0.success ==> site.modules + {name} <= r.1.modules
    ensures !r.0.success ==> r.1.modules == site.modules
    ensures name !in site.modules && outcome.Installed? ==>
              r.1.modules == site.modules + {name} + outcome.dependencies
  {
    if name in site.modules then (ActionResult(true, title + " is already enabled."), site)
    else match outcome
      case Installed(dependencies) =>
        (ActionResult(true, title + " enabled successfully."), site.(modules := site.modules + {name} + dependencies))
      case InstallRefused => (ActionResult(false, "Failed to enable " + title + "."), site)
      case InstallError(m) => (ActionResult(false, "Error enabling " + title + ": " + m), site)
  }

  /** Enabling Simple OAuth on a site that lacks Consumers, when the
      installer brings Consumers in as a dependency, completes both
      modules' checks; a check already complete stays complete. */
  lemma EnableWithDependency(site: Site)
    requires SIMPLE_OAUTH !in site.modules && CONSUMERS !in site.modules
    ensures var r := EnableModule(site, SIMPLE_OAUTH, "Simple OAuth", Installed({CONSUMERS})).1;
            && ModuleCheck(r, SIMPLE_OAUTH, ENABLE_SIMPLE_OAUTH).status == COMPLETE
            && ModuleCheck(r, CONSUMERS, ENABLE_CONSUMERS).status == COMPLETE
            && (JSONAPI in site.modules ==> ModuleCheck(r, JSONAPI, ENABLE_JSONAPI).status == COMPLETE)
  {
  }

  /** PHP `empty()` of the stored origins after `?? []`. */
  predicate OriginsEmpty(v: Stored<String>) {
    v.Unset? || (v.Scalar? && PhpEmpty(v.text)) || (v.Array? && v.items == [])
  }

  /** Enables CORS and, when no origins are stored, installs the two
      localhost defaults; stored origins are kept otherwise. */
  function EnableCors(s: Settings): (r: Settings)
    ensures r.enableCors
    ensures OriginsEmpty(s.corsAllowedOrigins) ==> GetAllowedOrigins(r) == DEFAULT_ORIGINS
    ensures !OriginsEmpty(s.corsAllowedOrigins) ==> r.corsAllowedOrigins == s.corsAllowedOrigins
    ensures r.(enableCors := s.enableCors, corsAllowedOrigins := s.corsAllowedOrigins) == s
  {
    var enabled := s.(enableCors := true);
    if OriginsEmpty(s.corsAllowedOrigins) then enabled.(corsAllowedOrigins := Array(DEFAULT_ORIGINS))
    else enabled
  }

  /** Runs the auto-fix named `action`. The three module actions enable their
      module, `generate_oauth_keys` generates keys, `enable_cors` enables CORS
      and always reports success; any other action fails with
      "Unknown action: " followed by its name and changes nothing. */
  function ExecuteAction(site: Site, action: String, install: InstallOutcome, keyEffects: OAuthKeys.KeyGenEffects)
    : (r: (ActionResult, Site))
    ensures !FixAction(action)
            ==> r == (ActionResult(false, "Unknown action: " + action), site)
    ensures action == ENABLE_JSONAPI ==> r == EnableModule(site, JSONAPI, "JSON:API", install)
    ensures action == ENABLE_CONSUMERS ==> r == EnableModule(site, CONSUMERS, "Consumers", install)
    ensures action == ENABLE_SIMPLE_OAUTH ==> r == EnableModule(site, SIMPLE_OAUTH, "Simple OAuth", install)
    ensures action == GENERATE_OAUTH_KEYS ==>
              r.0.success == OAuthKeys.GenerateKeys(site.keys, keyEffects).0
              && r.1 == site.(keys := OAuthKeys.GenerateKeys(site.keys, keyEffects).1)
    ensures action == ENABLE_CORS ==> r.0.success && r.1 == site.(settings := EnableCors(site.settings))
  {
    if action == ENABLE_JSONAPI then EnableModule(site, JSONAPI, "JSON:API", install)
    else if action == ENABLE_CONSUMERS then EnableModule(site, CONSUMERS, "Consumers", install)
    else if action == ENABLE_SIMPLE_OAUTH then EnableModule(site, SIMPLE_OAUTH, "Simple OAuth", install)
    else if action == GENERATE_OAUTH_KEYS then
      var (ok, keys) := OAuthKeys.GenerateKeys(site.keys, keyEffects);
      (ActionResult(ok, if ok then "OAuth2 keys generated successfully." else "Failed to generate OAuth2 keys. Check logs for details."),
       site.(keys := keys))
    else if action == ENABLE_CORS then
      (ActionResult(true, "CORS enabled with default localhost origins."), site.(settings := EnableCors(site.settings)))
    else (ActionResult(false, "Unknown action: " + action), site)
  }

  /** A successful module auto-fix completes that module's check. */
  lemma EnableModuleCompletesCheck(site: Site, name: String, title: String, action: String, outcome: InstallOutcome)
    requires EnableModule(site, name, title, outcome).0.success
    ensures ModuleCheck(EnableModule(site, name, title, outcome).1, name, action).status == COMPLETE
  {
  }

  /** The CORS auto-fix completes the CORS check unless a non-empty scalar
      is stored as the origin list (PHP does not treat it as empty, and it
      is not an array of origins). */
  lemma EnableCorsCompletesCheck(site: Site)
    requires !(site.settings.corsAllowedOrigins.Scalar? && !PhpEmpty(site.settings.corsAllowedOrigins.text))
    ensures CheckCors(ExecuteAction(site, ENABLE_CORS, Installed({}), OAuthKeys.KeyGenEffects(true, true, true, true)).1).status == COMPLETE
  {
  }

  /** A successful key auto-fix completes the key check. */
  lemma GenerateKeysCompletesCheck(site: Site, fx: OAuthKeys.KeyGenEffects)
    requires ExecuteAction(site, GENERATE_OAUTH_KEYS, Installed({}), fx).0.success
    ensures CheckOAuthKeys(ExecuteAction(site, GENERATE_OAUTH_KEYS, Installed({}), fx).1).status == COMPLETE
  {
    OAuthKeys.GeneratedKeysValidate(site.keys, fx);
  }

  /** `executeAction` as written: the `enable_cors` branch asks the
      configuration manager for `getConfig()`, which it does not define, so
      that branch always raises an `Error` that the surrounding
      `catch (\Exception)` does not catch. Every other action behaves as
      `ExecuteAction`. */
  function ExecuteActionAsWritten(site: Site, action: String, install: InstallOutcome, keyEffects: OAuthKeys.KeyGenEffects)
    : (r: Outcome<(ActionResult, Site)>)
    ensures action == ENABLE_CORS <==> r.Uncaught?
    ensures r.Returned? ==> r.value == ExecuteAction(site, action, install, keyEffects)
  {
    if action == ENABLE_CORS then Uncaught(UNDEFINED_GET_CONFIG)
    else Returned(ExecuteAction(site, action, install, keyEffects))
  }

  /** With CORS disabled the CORS check offers the `enable_cors` auto-fix,
      but running that action as written never returns: CORS cannot be
      enabled from the checklist. */
  lemma CorsAutoFixAsWrittenFails(site: Site, install: InstallOutcome, fx: OAuthKeys.KeyGenEffects)
    requires !site.settings.enableCors
    ensures CheckCors(site).autoFix && CheckCors(site).status != COMPLETE
    ensures CheckCors(site).action == Some(ENABLE_CORS)
    ensures ExecuteActionAsWritten(site, CheckCors(site).action.value, install, fx).Uncaught?
  {
  }
}
