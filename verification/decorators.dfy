/**
  The bearer-token check that guards the inference view
  (`taranis_base_bot/decorators.py`).
 */
module Decorators {
  import opened PyValues
  import opened PyStrings
  import opened Views

  const BearerPrefix := "Bearer "

  /** The configured key after `or ""` and `strip()`. */
  function StrippedKey(configured: Option<string>): string
  {
    Strip(match configured case Some(k) => k case None => "")
  }

  /** The four ways a request leaves the check; the two rejections are logged differently. */
  datatype AuthDecision = AuthDisabled | MissingBearer | IncorrectKey | KeyMatches

  /**
    The decision for a configured key (`current_app.config.get("API_KEY")`) and
    the `Authorization` header (`""` when absent).
   */
  function Decide(configured: Option<string>, header: Option<string>): AuthDecision
  {
    var apiKey := StrippedKey(configured);
    var auth := match header case Some(h) => h case None => "";
    if apiKey == "" then AuthDisabled
    else if !StartsWith(auth, BearerPrefix) then MissingBearer
    else if Strip(RemovePrefix(auth, BearerPrefix)) != apiKey then IncorrectKey
    else KeyMatches
  }

  predicate Authorized(configured: Option<string>, header: Option<string>)
  {
    var d := Decide(configured, header);
    d.AuthDisabled? || d.KeyMatches?
  }

  const NotAuthorized := Response(401, ErrorBody("not authorized"))

  /** `api_key_required(fn)`: the wrapped view. */
  function ApiKeyRequired(fn: View): View
  {
    (env: Env, req: Request) =>
      if Authorized(env.apiKey, req.authorization) then fn(env, req) else Returned(NotAuthorized)
  }

  /**
    Authorized exactly when the stripped key is empty, or the header starts with
    `"Bearer "` and what follows, stripped, equals the stripped key.
   */
  lemma AuthorizedIff(configured: Option<string>, header: Option<string>)
    ensures var auth := match header case Some(h) => h case None => "";
      Authorized(configured, header) <==>
        StrippedKey(configured) == "" ||
        (StartsWith(auth, BearerPrefix) && Strip(auth[|BearerPrefix|..]) == StrippedKey(configured))
  {
  }

  /** With no key, or a whitespace-only key, configured the handler always runs, whatever the header. */
  lemma BlankKeyPassesThrough(fn: View, env: Env, req: Request)
    requires env.apiKey.None? || AllSpace(env.apiKey.value)
    ensures ApiKeyRequired(fn)(env, req) == fn(env, req)
  {
    var k := match env.apiKey case Some(k) => k case None => "";
    assert k + "" == k;
    LStripSpacePrefix(k, "");
    assert StrippedKey(env.apiKey) == "";
  }

  /** A missing header, or one not starting with the case-sensitive `"Bearer "`, is refused with 401. */
  lemma MissingBearerRejected(fn: View, env: Env, req: Request)
    requires StrippedKey(env.apiKey) != ""
    requires req.authorization.None? || !StartsWith(req.authorization.value, BearerPrefix)
    ensures ApiKeyRequired(fn)(env, req) == Returned(NotAuthorized)
  {
    var auth := match req.authorization case Some(h) => h case None => "";
    assert !StartsWith(auth, BearerPrefix) by {
      assert |BearerPrefix| == 7;
    }
    assert Decide(env.apiKey, req.authorization) == MissingBearer;
    assert !Authorized(env.apiKey, req.authorization);
  }

  /** A bearer token decides by its stripped text alone: it runs the handler iff it matches the stripped key. */
  lemma BearerTokenDecides(fn: View, env: Env, req: Request, token: string)
    requires StrippedKey(env.apiKey) != ""
    requires req.authorization == Some(BearerPrefix + token)
    ensures Strip(token) == StrippedKey(env.apiKey) ==> ApiKeyRequired(fn)(env, req) == fn(env, req)
    ensures Strip(token) != StrippedKey(env.apiKey) ==> ApiKeyRequired(fn)(env, req) == Returned(NotAuthorized)
  {
    var auth := BearerPrefix + token;
    assert StartsWith(auth, BearerPrefix) by {
      assert auth[..|BearerPrefix|] == BearerPrefix;
    }
    assert RemovePrefix(auth, BearerPrefix) == token;
    assert Authorized(env.apiKey, req.authorization) <==> Strip(token) == StrippedKey(env.apiKey);
  }

  /** `"Bearer " + key` is accepted for every non-blank key with no surrounding whitespace. */
  lemma ExactBearerAccepted(fn: View, env: Env, req: Request, key: string)
    requires env.apiKey == Some(key) && Strip(key) != "" && Unpadded(key)
    requires req.authorization == Some(BearerPrefix + key)
    ensures ApiKeyRequired(fn)(env, req) == fn(env, req)
  {
    StripResultUnpadded(key);
    BearerTokenDecides(fn, env, req, key);
  }

  /**
    Whitespace around the token, or around the configured key, is ignored: the
    header need not be exactly `"Bearer " + key`.
   */
  lemma PaddedBearerAccepted(fn: View, env: Env, req: Request, key: string, before: string, after: string)
    requires env.apiKey.Some? && Strip(env.apiKey.value) == key && key != ""
    requires AllSpace(before) && AllSpace(after)
    requires req.authorization == Some(BearerPrefix + before + key + after)
    ensures ApiKeyRequired(fn)(env, req) == fn(env, req)
  {
    assert BearerPrefix + before + key + after == BearerPrefix + (before + key + after);
    StripIgnoresPadding(before, key, after);
    assert Strip(key) == key by {
      StripIdempotent(env.apiKey.value);
    }
    BearerTokenDecides(fn, env, req, before + key + after);
  }
}
