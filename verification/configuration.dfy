/** The module settings (`drupal_headless.settings`) and the configuration
    manager's rules over them: typed reads with defaults, the frontend
    framework list, and the dependency check. */
module Configuration {

  import opened Text

  /** A settings value as the config system returns it: NULL, a scalar, or
      an array. Only arrays are accepted as lists. */
  datatype Stored<T> = Unset | Scalar(text: String) | Array(items: seq<T>)

  /** One entry of `frontend_frameworks`. Keys the array may lack are `None`. */
  datatype Framework = Framework(
    name: Option<String>,
    kind: Option<String>,
    previewUrl: Option<String>,
    consumerUuid: Option<String>)

  datatype Settings = Settings(
    enableCors: bool,
    corsAllowedOrigins: Stored<String>,
    enableRateLimiting: bool,
    rateLimitRequests: Option<int>,
    rateLimitWindow: Option<int>,
    frontendFrameworks: Stored<Framework>,
    defaultPreviewUrl: Option<String>,
    previewUrls: map<String, String>,
    autoConfigureOauth: bool,
    defaultTokenExpiration: Option<int>)

  datatype RateLimit = RateLimit(requests: int, window: int)

  const DEFAULT_RATE_LIMIT_REQUESTS := 100
  const DEFAULT_RATE_LIMIT_WINDOW := 3600

  /** The error PHP raises for a call to `getConfig()`, which the
      configuration manager does not define. */
  const UNDEFINED_GET_CONFIG := "Call to undefined method ConfigurationManager::getConfig()"

  /** The modules the headless setup depends on, in the order they are checked. */
  const REQUIRED_MODULES: seq<String> := ["jsonapi", "consumers", "simple_oauth"]

  /** `is_array($v) ? $v : []`. */
  function ListOrEmpty<T>(v: Stored<T>): seq<T> {
    if v.Array? then v.items else []
  }

  /** The allowed CORS origins: the stored list, or none when the stored
      value is not an array. */
  function GetAllowedOrigins(s: Settings): (r: seq<String>)
    ensures s.corsAllowedOrigins.Array? ==> r == s.corsAllowedOrigins.items
    ensures !s.corsAllowedOrigins.Array? ==> r == []
  {
    ListOrEmpty(s.corsAllowedOrigins)
  }

  /** The configured frontend frameworks: the stored list, or none when the
      stored value is not an array. */
  function GetFrameworks(s: Settings): (r: seq<Framework>)
    ensures s.frontendFrameworks.Array? ==> r == s.frontendFrameworks.items
    ensures !s.frontendFrameworks.Array? ==> r == []
  {
    ListOrEmpty(s.frontendFrameworks)
  }

  /** The rate limit, with 100 requests per 3600 seconds for unset values. */
  function GetRateLimitConfig(s: Settings): (r: RateLimit)
    ensures s.rateLimitRequests.None? ==> r.requests == DEFAULT_RATE_LIMIT_REQUESTS
    ensures s.rateLimitRequests.Some? ==> r.requests == s.rateLimitRequests.value
    ensures s.rateLimitWindow.None? ==> r.window == DEFAULT_RATE_LIMIT_WINDOW
    ensures s.rateLimitWindow.Some? ==> r.window == s.rateLimitWindow.value
  {
    RateLimit(s.rateLimitRequests.GetOr(DEFAULT_RATE_LIMIT_REQUESTS),
              s.rateLimitWindow.GetOr(DEFAULT_RATE_LIMIT_WINDOW))
  }

  /** Appends a framework when it has a non-empty name and type. On
      rejection nothing is written; on success only the framework list
      changes, and it grows by exactly the new entry at its end. A stored
      scalar makes PHP's append operator fail, so it is excluded. */
  function AddFramework(s: Settings, f: Framework): (r: (bool, Settings))
    requires !s.frontendFrameworks.Scalar?
    ensures r.0 <==> Truthy(f.name) && Truthy(f.kind)
    ensures !r.0 ==> r.1 == s
    ensures r.0 ==> GetFrameworks(r.1) == GetFrameworks(s) + [f]
    ensures r.0 ==> r.1.(frontendFrameworks := s.frontendFrameworks) == s
  {
    if !Truthy(f.name) || !Truthy(f.kind) then (false, s)
    else (true, s.(frontendFrameworks := Array(ListOrEmpty(s.frontendFrameworks) + [f])))
  }

  /** The predicate `array_filter` applies in `removeFramework`: keep entries
      without a consumer UUID or with a different one. */
  function NotOwnedBy(u: String): Framework -> bool {
    (f: Framework) => f.consumerUuid != Some(u)
  }

  /** True when some entry of `fs` is linked to consumer `u`. */
  predicate LinkedTo(fs: seq<Framework>, u: String) {
    exists i :: 0 <= i < |fs| && fs[i].consumerUuid == Some(u)
  }

  /** Removes every framework linked to consumer `u`. Reports FALSE, and
      writes nothing, when no entry was linked to `u`; otherwise the new list
      is the old one without those entries, in the same order, and nothing
      else changes. */
  function RemoveFramework(s: Settings, u: String): (r: (bool, Settings))
    requires !s.frontendFrameworks.Scalar?
    ensures r.0 <==> LinkedTo(GetFrameworks(s), u)
    ensures !r.0 ==> r.1 == s
    ensures r.0 ==> GetFrameworks(r.1) == Filter(GetFrameworks(s), NotOwnedBy(u))
    ensures r.0 ==> r.1.(frontendFrameworks := s.frontendFrameworks) == s
  {
    var fs := ListOrEmpty(s.frontendFrameworks);
    var kept := Filter(fs, NotOwnedBy(u));
    FilterKeepsAll(fs, NotOwnedBy(u));
    if |kept| == |fs| then (false, s)
    else (true, s.(frontendFrameworks := Array(kept)))
  }

  /** After a removal no remaining framework is linked to `u`, every entry
      not linked to `u` survives, and survivors keep their relative order. */
  lemma RemoveFrameworkKeepsOthers(s: Settings, u: String, a: seq<Framework>, b: seq<Framework>)
    requires !s.frontendFrameworks.Scalar?
    requires GetFrameworks(s) == a + b
    ensures !LinkedTo(GetFrameworks(RemoveFramework(s, u).1), u)
    ensures forall f :: f in a + b && f.consumerUuid != Some(u) ==> f in GetFrameworks(RemoveFramework(s, u).1)
    ensures GetFrameworks(RemoveFramework(s, u).1) == Filter(a, NotOwnedBy(u)) + Filter(b, NotOwnedBy(u))
  {
    var fs := a + b;
    var p := NotOwnedBy(u);
    var r := RemoveFramework(s, u);
    FilterConcat(a, b, p);
    FilterMembers(fs, p);
    if !r.0 {
      FilterKeepsAll(fs, p);
      FilterAll(fs, p);
    }
    var after := GetFrameworks(r.1);
    assert after == Filter(fs, p);
    forall i | 0 <= i < |after| ensures after[i].consumerUuid != Some(u) {
      assert after[i] in after;
    }
  }

  /** The predicate selecting modules that are not installed. */
  function NotInstalled(installed: set<String>): String -> bool {
    (m: String) => m !in installed
  }

  /** The modules of `required` that are not installed, in order. */
  method MissingModules(required: seq<String>, installed: set<String>) returns (missing: seq<String>)
    ensures missing == Filter(required, NotInstalled(installed))
    ensures forall m :: m in missing <==> m in required && m !in installed
  {
    missing := [];
    var i := 0;
    while i < |required|
      invariant 0 <= i <= |required|
      invariant missing == Filter(required[..i], NotInstalled(installed))
    {
      var name := required[i];
      FilterConcat(required[..i], [name], NotInstalled(installed));
      assert required[..i + 1] == required[..i] + [name];
      if name !in installed {
        missing := missing + [name];
      }
      i := i + 1;
    }
    assert required[..i] == required;
    FilterMembers(required, NotInstalled(installed));
  }

  /** The required modules that are missing, in the order they are checked.
      The list is empty exactly when all three are installed. */
  method CheckDependencies(installed: set<String>) returns (missing: seq<String>)
    ensures missing == Filter(REQUIRED_MODULES, NotInstalled(installed))
    ensures forall m :: m in missing <==> m in REQUIRED_MODULES && m !in installed
    ensures missing == [] <==> forall m :: m in REQUIRED_MODULES ==> m in installed
  {
    missing := MissingModules(REQUIRED_MODULES, installed);
  }
}
