/**
 * The request guard built on the CSRF manager, and the get-or-create helper that
 * hands a page its token. The wrapped handler (`next`) is modelled by the decision
 * to call it; the manager's state is the token table the guard consults.
 */
module CsrfMiddleware {
  import opened Wrappers
  import opened Base64Url
  import opened Csrf

  const StatusForbidden := 403

  /** What the guard does with a request: hand it to `next`, or answer with an error. */
  datatype Decision = CallNext | Reject(status: int, message: string)

  /** GET, HEAD and OPTIONS change nothing and are never checked. */
  predicate IsSafeMethod(verb: string) {
    verb == "GET" || verb == "HEAD" || verb == "OPTIONS"
  }

  /** CSRFMiddleware's decision for one request, given the token table at time `now`. */
  function CSRFMiddleware(r: Request, tokens: map<string, CsrfToken>, now: int): (d: Decision)
    ensures IsSafeMethod(r.verb) ==> d == CallNext
    ensures GetSessionIDFromRequest(r) == "" ==> d == CallNext
    ensures d.Reject? ==> d.status == StatusForbidden
    ensures d == CallNext ==>
              || IsSafeMethod(r.verb)
              || GetSessionIDFromRequest(r) == ""
              || Accepts(Lookup(tokens, GetSessionIDFromRequest(r)), GetCSRFTokenFromRequest(r), now)
  {
    if IsSafeMethod(r.verb) then CallNext
    else
      var sessionID := GetSessionIDFromRequest(r);
      if sessionID == "" then CallNext
      else
        var token := GetCSRFTokenFromRequest(r);
        if token == "" then Reject(StatusForbidden, "CSRF token required")
        else if !Accepts(Lookup(tokens, sessionID), token, now) then Reject(StatusForbidden, "Invalid CSRF token")
        else CallNext
  }

  /** CSRFProtect is the same guard under another name. */
  function CSRFProtect(r: Request, tokens: map<string, CsrfToken>, now: int): (d: Decision)
    ensures d == CSRFMiddleware(r, tokens, now)
  {
    CSRFMiddleware(r, tokens, now)
  }

  /** Safe methods pass whatever the manager holds: the manager is not consulted. */
  lemma SafeMethodsIgnoreManager(r: Request, t1: map<string, CsrfToken>, t2: map<string, CsrfToken>, now1: int, now2: int)
    requires IsSafeMethod(r.verb)
    ensures CSRFMiddleware(r, t1, now1) == CSRFMiddleware(r, t2, now2) == CallNext
  {
  }

  /** A state-changing request with a session but no token is refused as "CSRF token required". */
  lemma MissingTokenRejected(r: Request, tokens: map<string, CsrfToken>, now: int)
    requires !IsSafeMethod(r.verb) && GetSessionIDFromRequest(r) != "" && GetCSRFTokenFromRequest(r) == ""
    ensures CSRFMiddleware(r, tokens, now) == Reject(StatusForbidden, "CSRF token required")
  {
  }

  /** A supplied token that does not validate is refused as "Invalid CSRF token". */
  lemma InvalidTokenRejected(r: Request, tokens: map<string, CsrfToken>, now: int)
    requires !IsSafeMethod(r.verb) && GetSessionIDFromRequest(r) != "" && GetCSRFTokenFromRequest(r) != ""
    requires !Accepts(Lookup(tokens, GetSessionIDFromRequest(r)), GetCSRFTokenFromRequest(r), now)
    ensures CSRFMiddleware(r, tokens, now) == Reject(StatusForbidden, "Invalid CSRF token")
  {
  }

  /**
   * For a state-changing request that carries a session, `next` runs exactly when the
   * submitted token validates for that session (stored tokens are never empty).
   */
  lemma NextIffTokenValidates(r: Request, tokens: map<string, CsrfToken>, now: int)
    requires NonEmptyTokens(tokens)
    requires !IsSafeMethod(r.verb) && GetSessionIDFromRequest(r) != ""
    ensures CSRFMiddleware(r, tokens, now) == CallNext
            <==> Accepts(Lookup(tokens, GetSessionIDFromRequest(r)), GetCSRFTokenFromRequest(r), now)
  {
    var sessionID := GetSessionIDFromRequest(r);
    if GetCSRFTokenFromRequest(r) == "" && sessionID in tokens {
      assert tokens[sessionID].token != "";
    }
  }

  /**
   * A token minted for another session does not let the request through, unless the
   * request's own session happens to hold the very same text.
   */
  lemma OtherSessionsTokenRejected(r: Request, tokens: map<string, CsrfToken>, now: int, other: string)
    requires !IsSafeMethod(r.verb) && GetSessionIDFromRequest(r) != "" && other != GetSessionIDFromRequest(r)
    requires other in tokens && GetCSRFTokenFromRequest(r) == tokens[other].token
    requires GetSessionIDFromRequest(r) in tokens ==> tokens[GetSessionIDFromRequest(r)].token != tokens[other].token
    ensures CSRFMiddleware(r, tokens, now).Reject?
  {
  }

  /**
   * EnsureCSRFToken: for a request with a session, the session's unexpired token, or
   * else a freshly created one, which is also set as a cookie. `entropy` is what the
   * random source gave if a token has to be created.
   */
  method EnsureCSRFToken(mgr: CSRFManager, r: Request, entropy: Result<seq<Byte>>, now: int)
    returns (token: string, cookie: Option<Cookie>)
    requires mgr.Valid()
    requires entropy.Ok? ==> |entropy.value| == CsrfTokenLength
    modifies mgr
    ensures mgr.Valid()
    ensures GetSessionIDFromRequest(r) == "" ==> token == "" && cookie == None && mgr.tokens == old(mgr.tokens)
    ensures GetSessionIDFromRequest(r) != "" && Current(Lookup(old(mgr.tokens), GetSessionIDFromRequest(r)), now) != "" ==>
              token == Current(Lookup(old(mgr.tokens), GetSessionIDFromRequest(r)), now)
              && cookie == None && mgr.tokens == old(mgr.tokens)
    ensures GetSessionIDFromRequest(r) != "" && Current(Lookup(old(mgr.tokens), GetSessionIDFromRequest(r)), now) == "" ==>
              if entropy.Err? then token == "" && cookie == None && mgr.tokens == old(mgr.tokens)
              else token == Encode(entropy.value) && cookie == Some(CSRFCookie(token))
                   && mgr.tokens == old(mgr.tokens)[GetSessionIDFromRequest(r) := CsrfToken(token, now)]
    // afterwards a second call at the same `now` finds this token and changes nothing
    ensures token != "" ==> Current(Lookup(mgr.tokens, GetSessionIDFromRequest(r)), now) == token
  {
    var sessionID := GetSessionIDFromRequest(r);
    if sessionID == "" {
      return "", None;
    }
    var existing := mgr.GetToken(sessionID, now);
    if existing != "" {
      return existing, None;
    }
    var created := mgr.CreateToken(sessionID, entropy, now);
    if created.Err? {
      return "", None;
    }
    token := created.value;
    cookie := Some(CSRFCookie(token));
  }
}
