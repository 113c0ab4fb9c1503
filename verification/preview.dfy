/** The preview manager: short-lived preview tokens for entities, kept in a
    map from token to token data, and the frontend preview URL that carries
    a fresh token. */
module Preview {

  import opened Text
  import opened Configuration

  /** A token stays valid for one hour after it is issued. */
  const TOKEN_LIFETIME := 3600

  const NODE := "node"
  const PREVIEW_PARAM := "preview="

  /** What a token records about the previewed entity. */
  datatype EntityRef = EntityRef(entityType: String, id: String, uuid: String, bundle: String)

  datatype TokenData = TokenData(
    entityType: String,
    entityId: String,
    entityUuid: String,
    bundle: String,
    created: int,
    expires: int)

  /** The stored tokens (`drupal_headless.preview_tokens`). */
  type Tokens = map<String, TokenData>

  /** A token has expired once its expiry time lies strictly in the past. */
  predicate Expired(d: TokenData, now: int) {
    d.expires < now
  }

  /** Records the fresh token `token` for `e` at time `now`, expiring one
      hour later; every other token is untouched. */
  function GenerateToken(tokens: Tokens, e: EntityRef, token: String, now: int): (r: Tokens)
    requires token !in tokens
    ensures r.Keys == tokens.Keys + {token}
    ensures r[token].created == now && r[token].expires == now + TOKEN_LIFETIME
    ensures r[token].entityType == e.entityType && r[token].entityId == e.id
    ensures r[token].entityUuid == e.uuid && r[token].bundle == e.bundle
    ensures forall t :: t in tokens ==> r[t] == tokens[t]
  {
    tokens[token := TokenData(e.entityType, e.id, e.uuid, e.bundle, now, now + TOKEN_LIFETIME)]
  }

  /** Removes `token`; an absent token leaves the store as it is. */
  function DeleteToken(tokens: Tokens, token: String): (r: Tokens)
    ensures r.Keys == tokens.Keys - {token}
    ensures forall t :: t in r ==> r[t] == tokens[t]
    ensures token !in tokens ==> r == tokens
  {
    if token in tokens then tokens - {token} else tokens
  }

  /** Looks `token` up at time `now`. An unknown token yields nothing and
      changes nothing; an expired one yields nothing and is removed; a token
      whose expiry time is now or later yields its data and stays. */
  function ValidateToken(tokens: Tokens, token: String, now: int): (r: (Option<TokenData>, Tokens))
    ensures r.0.Some? <==> token in tokens && !Expired(tokens[token], now)
    ensures r.0.Some? ==> r.0.value == tokens[token] && r.1 == tokens
    ensures token !in tokens ==> r.1 == tokens
    ensures token in tokens && Expired(tokens[token], now) ==> r.1 == DeleteToken(tokens, token)
  {
    if token !in tokens then (None, tokens)
    else if Expired(tokens[token], now) then (None, DeleteToken(tokens, token))
    else (Some(tokens[token]), tokens)
  }

  /** A token validates, with the data recorded for its entity, exactly
      while no more than one hour has passed since it was issued. */
  lemma GeneratedTokenLifetime(tokens: Tokens, e: EntityRef, token: String, issued: int, now: int)
    requires token !in tokens
    ensures var r := ValidateToken(GenerateToken(tokens, e, token, issued), token, now);
            && (r.0.Some? <==> now <= issued + TOKEN_LIFETIME)
            && (r.0.Some? ==> r.0.value.entityUuid == e.uuid && r.0.value.created == issued)
            && (r.0.None? ==> r.1 == tokens)
  {
    var g := GenerateToken(tokens, e, token, issued);
    assert g - {token} == tokens;
  }

  /** Deleting a token just issued restores the store exactly. */
  lemma DeleteUndoesGenerate(tokens: Tokens, e: EntityRef, token: String, now: int)
    requires token !in tokens
    ensures DeleteToken(GenerateToken(tokens, e, token, now), token) == tokens
  {
    assert GenerateToken(tokens, e, token, now) - {token} == tokens;
  }

  /** The tokens that have not expired at time `now`. */
  function GetActiveTokens(tokens: Tokens, now: int): (r: Tokens)
    ensures forall t :: t in r <==> t in tokens && !Expired(tokens[t], now)
    ensures forall t :: t in r ==> r[t] == tokens[t]
  {
    map t | t in tokens && !Expired(tokens[t], now) :: tokens[t]
  }

  /** The active tokens are exactly those that validate, with the data
      validation yields; validating an active token keeps the store. */
  lemma ActiveIffValid(tokens: Tokens, t: String, now: int)
    ensures t in GetActiveTokens(tokens, now) <==> ValidateToken(tokens, t, now).0.Some?
    ensures t in GetActiveTokens(tokens, now) ==>
              ValidateToken(tokens, t, now) == (Some(GetActiveTokens(tokens, now)[t]), tokens)
  {
  }

  /** Removes every token expired at time `now`, one at a time, counting the
      removals. Afterwards the store holds exactly the active tokens, and
      nothing was removed exactly when the store is unchanged. */
  method CleanupExpiredTokens(tokens: Tokens, now: int) returns (r: Tokens, cleaned: nat)
    ensures r == GetActiveTokens(tokens, now)
    ensures cleaned == 0 <==> r == tokens
  {
    r := tokens;
    cleaned := 0;
    var todo := tokens.Keys;
    while todo != {}
      invariant todo <= tokens.Keys
      invariant forall t :: t in r <==> t in tokens && (t in todo || !Expired(tokens[t], now))
      invariant forall t :: t in r ==> r[t] == tokens[t]
      invariant cleaned == 0 <==> r == tokens
      decreases |todo|
    {
      var t :| t in todo;
      if Expired(tokens[t], now) {
        assert t in r && t !in r - {t};
        r := r - {t};
        cleaned := cleaned + 1;
      }
      todo := todo - {t};
    }
    assert r == GetActiveTokens(tokens, now);
  }

  /** The frontend path for an entity: articles and pages of nodes have
      their own prefixes, other node bundles use the bundle name, and other
      entity types use the type name; the UUID comes last. */
  function GetPreviewPath(e: EntityRef): (path: String)
    ensures e.entityType == NODE && e.bundle == "article" ==> path == "/articles/" + e.uuid
    ensures e.entityType == NODE && e.bundle == "page" ==> path == "/pages/" + e.uuid
    ensures e.entityType == NODE && e.bundle != "article" && e.bundle != "page" ==> path == "/" + e.bundle + "/" + e.uuid
    ensures e.entityType != NODE ==> path == "/" + e.entityType + "/" + e.uuid
  {
    var segment :=
      if e.entityType != NODE then e.entityType
      else if e.bundle == "article" then "articles"
      else if e.bundle == "page" then "pages"
      else e.bundle;
    "/" + segment + "/" + e.uuid
  }

  /** Every preview path is absolute and ends in the entity's UUID. */
  lemma PreviewPathShape(e: EntityRef)
    ensures |GetPreviewPath(e)| > |e.uuid| && GetPreviewPath(e)[0] == '/'
    ensures GetPreviewPath(e)[|GetPreviewPath(e)| - |e.uuid|..] == e.uuid
  {
  }

  /** The base URL for previews: the framework's own URL when a (truthy)
      framework is given and has one configured, else the default URL. */
  function GetPreviewBaseUrl(s: Settings, framework: Option<String>): (base: Option<String>)
    ensures Truthy(framework) && framework.value in s.previewUrls ==> base == Some(s.previewUrls[framework.value])
    ensures !(Truthy(framework) && framework.value in s.previewUrls) ==> base == s.defaultPreviewUrl
  {
    if Truthy(framework) && framework.value in s.previewUrls then Some(s.previewUrls[framework.value])
    else s.defaultPreviewUrl
  }

  /** `base` and `path` joined by exactly one slash: trailing slashes of the
      base and leading slashes of the path are dropped first. */
  function JoinUrl(base: String, path: String): (url: String)
    ensures |url| == |RightTrimChar(base, '/')| + 1 + |LeftTrimChar(path, '/')|
    ensures url[..|RightTrimChar(base, '/')|] == RightTrimChar(base, '/') <= base
    ensures url[|RightTrimChar(base, '/')| + 1..] == LeftTrimChar(path, '/')
    ensures |RightTrimChar(base, '/')| < |url| && url[|RightTrimChar(base, '/')|] == '/'
    ensures |RightTrimChar(base, '/')| + 1 < |url| ==> url[|RightTrimChar(base, '/')| + 1] != '/'
    ensures |RightTrimChar(base, '/')| > 0 ==> url[|RightTrimChar(base, '/')| - 1] != '/'
  {
    var b := RightTrimChar(base, '/');
    var p := LeftTrimChar(path, '/');
    b + "/" + p
  }

  /** `url` with the query parameter `param` appended: after `?` when the
      URL has no query yet, else after `&`. */
  function AddQuery(url: String, param: String): (r: String)
    ensures |r| == |url| + 1 + |param|
    ensures r[..|url|] == url && r[|url| + 1..] == param
    ensures r[|url|] == (if '?' in url then '&' else '?')
  {
    url + [if '?' in url then '&' else '?'] + param
  }

  /** Issues a fresh token for `e` and returns the preview URL carrying it:
      the base URL for `framework` joined with the entity's preview path,
      plus the `preview` parameter. Without a (truthy) base URL there is no
      preview URL, but the token has been stored all the same. */
  function GeneratePreviewUrl(tokens: Tokens, s: Settings, e: EntityRef, framework: Option<String>, token: String, now: int)
    : (r: (Option<String>, Tokens))
    requires token !in tokens
    ensures r.1 == GenerateToken(tokens, e, token, now)
    ensures r.0.Some? <==> Truthy(GetPreviewBaseUrl(s, framework))
    ensures r.0.Some? ==> r.0.value == AddQuery(JoinUrl(GetPreviewBaseUrl(s, framework).value, GetPreviewPath(e)), PREVIEW_PARAM + token)
  {
    var stored := GenerateToken(tokens, e, token, now);
    var base := GetPreviewBaseUrl(s, framework);
    if !Truthy(base) then (None, stored)
    else (Some(AddQuery(JoinUrl(base.value, GetPreviewPath(e)), PREVIEW_PARAM + token)), stored)
  }

  /** Trailing slashes of "http://localhost:3000/" are trimmed. */
  lemma TrimLocalBase()
    ensures RightTrimChar("http://localhost:3000/", '/') == "http://localhost:3000"
  {
    var base := "http://localhost:3000/";
    assert base[..|base| - 1] == "http://localhost:3000";
    assert RightTrimChar(base, '/') == TrimRightWhile(base[..|base| - 1], x => x == '/');
  }

  /** The leading slash of an article path is trimmed. */
  lemma TrimArticlePath(uuid: String)
    ensures LeftTrimChar("/articles/" + uuid, '/') == "articles/" + uuid
  {
    var path := "/articles/" + uuid;
    var r := LeftTrimChar(path, '/');
    assert path[0] == '/' && path[1] == 'a' && path[1..] == "articles/" + uuid;
    // Only the leading '/' is stripped: keeping it would leave '/' first,
    // and stripping more would strip the 'a'.
    assert |path| - |r| == 1 by {
      if |path| - |r| == 0 { assert false; }
      if |path| - |r| > 1 { assert false; }
    }
  }

  /** Joining "http://localhost:3000/" with an article path. */
  lemma JoinLocalArticle(uuid: String)
    ensures JoinUrl("http://localhost:3000/", "/articles/" + uuid) == "http://localhost:3000/articles/" + uuid
  {
    TrimLocalBase();
    TrimArticlePath(uuid);
  }

  /** An article URL on localhost has no query when the UUID has none. */
  lemma NoQueryInLocalArticle(uuid: String)
    requires '?' !in uuid
    ensures '?' !in "http://localhost:3000/articles/" + uuid
  {
    var prefix := "http://localhost:3000/articles/";
    assert '?' !in prefix;
  }

  /** An article previewed against the base URL "http://localhost:3000/"
      gets the URL "http://localhost:3000/articles/<uuid>?preview=<token>"
      (`PREVIEW_PARAM` is "preview="). */
  lemma ArticlePreviewUrl(tokens: Tokens, s: Settings, e: EntityRef, token: String, now: int)
    requires token !in tokens
    requires s.defaultPreviewUrl == Some("http://localhost:3000/")
    requires e.entityType == NODE && e.bundle == "article" && '?' !in e.uuid
    ensures GeneratePreviewUrl(tokens, s, e, None, token, now).0
            == Some("http://localhost:3000/articles/" + e.uuid + "?" + PREVIEW_PARAM + token)
  {
    var url := "http://localhost:3000/articles/" + e.uuid;
    JoinLocalArticle(e.uuid);
    NoQueryInLocalArticle(e.uuid);
    assert AddQuery(url, PREVIEW_PARAM + token) == url + "?" + (PREVIEW_PARAM + token);
    AppendAssoc(url + "?", PREVIEW_PARAM, token);
  }
}
