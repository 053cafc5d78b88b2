/**
 * The CSRF token manager: one anti-forgery token per session, valid for 24 hours,
 * plus where an inbound request carries its token and session, and the cookie that
 * hands the token to the browser.
 *
 * Time is an explicit `now` in nanoseconds. The 32 random bytes are an input, the
 * outcome of reading the random source.
 */
module Csrf {
  import opened Wrappers
  import opened Base64Url

  const CsrfTokenLength := 32
  const CSRFCookieName := "tanzia-csrf"
  const CSRFFormFieldName := "csrf_token"
  const CSRFHeaderName := "X-CSRF-Token"
  const SessionCookieName := "tanzia-session"
  const Second := 1_000_000_000
  const Hour := 3600 * Second
  const CsrfTokenExpiry := 24 * Hour

  datatype CsrfToken = CsrfToken(token: string, createdAt: int)

  // ---------------------------------------------------------------------------
  // Token text
  // ---------------------------------------------------------------------------

  /**
   * GenerateCSRFToken: the text of 32 random bytes, or the random source's error.
   * `entropy` is what reading the random source gave.
   */
  function GenerateCSRFToken(entropy: Result<seq<Byte>>): (r: Result<string>)
    requires entropy.Ok? ==> |entropy.value| == CsrfTokenLength
    ensures entropy.Err? ==> r == Err(entropy.error)
    ensures entropy.Ok? ==> r.Ok? && |r.value| == 44 && Decode(r.value) == Some(entropy.value)
  {
    if entropy.Err? then Err(entropy.error)
    else
      TokenText(entropy.value);
      Ok(Encode(entropy.value))
  }

  /** The text of 32 bytes is 44 characters long (43 letters and one pad) and decodes back to them. */
  lemma TokenText(b: seq<Byte>)
    requires |b| == CsrfTokenLength
    ensures |Encode(b)| == 44 && Decode(Encode(b)) == Some(b)
  {
    DecodeEncode(b);
  }

  /** Two token texts are equal only when the random bytes behind them were. */
  lemma DistinctEntropyDistinctTokens(e1: seq<Byte>, e2: seq<Byte>)
    requires |e1| == CsrfTokenLength && |e2| == CsrfTokenLength && e1 != e2
    ensures GenerateCSRFToken(Ok(e1)).value != GenerateCSRFToken(Ok(e2)).value
  {
    if Encode(e1) == Encode(e2) {
      EncodeInjective(e1, e2);
    }
  }

  // ---------------------------------------------------------------------------
  // One session's entry (a missing entry is `None`)
  // ---------------------------------------------------------------------------

  /** More than 24 hours (strictly) have passed since the token was created. */
  predicate Expired(entry: CsrfToken, now: int) {
    now - entry.createdAt > CsrfTokenExpiry
  }

  /** GetToken's answer: the stored token while it is unexpired, else "". */
  function Current(entry: Option<CsrfToken>, now: int): (t: string)
    ensures t != "" ==> entry.Some? && !Expired(entry.value, now) && t == entry.value.token
    ensures entry.Some? && !Expired(entry.value, now) ==> t == entry.value.token
  {
    if entry.None? then ""
    else if Expired(entry.value, now) then ""
    else entry.value.token
  }

  /**
   * ValidateToken's answer. The constant-time comparison is modelled by its result,
   * equality of the two byte strings.
   */
  predicate Accepts(entry: Option<CsrfToken>, candidate: string, now: int)
    ensures Accepts(entry, candidate, now) ==> entry.Some? && !Expired(entry.value, now)
    ensures candidate != "" ==> (Accepts(entry, candidate, now) <==> candidate == Current(entry, now))
  {
    if entry.None? then false
    else if Expired(entry.value, now) then false
    else entry.value.token == candidate
  }

  /** Every stored token is non-empty, as every generated one is. */
  predicate NonEmptyTokens(tokens: map<string, CsrfToken>) {
    forall k :: k in tokens ==> tokens[k].token != ""
  }

  /** The token table after one pass of the sweep. */
  function Unexpired(tokens: map<string, CsrfToken>, now: int): (r: map<string, CsrfToken>)
    ensures forall k :: k in r <==> k in tokens && !Expired(tokens[k], now)
    ensures forall k :: k in r ==> r[k] == tokens[k]
  {
    map k | k in tokens && !Expired(tokens[k], now) :: tokens[k]
  }

  /** The sweep changes no answer of ValidateToken or GetToken. */
  lemma SweepUnobservable(tokens: map<string, CsrfToken>, now: int, session: string, candidate: string)
    ensures Accepts(Lookup(Unexpired(tokens, now), session), candidate, now) == Accepts(Lookup(tokens, session), candidate, now)
    ensures Current(Lookup(Unexpired(tokens, now), session), now) == Current(Lookup(tokens, session), now)
  {
  }

  // ---------------------------------------------------------------------------
  // The manager object
  // ---------------------------------------------------------------------------

  class CSRFManager {
    var tokens: map<string, CsrfToken>

    ghost predicate Valid()
      reads this
    {
      NonEmptyTokens(tokens)
    }

    /** NewCSRFManager. */
    constructor ()
      ensures Valid() && tokens == map[]
    {
      tokens := map[];
    }

    /**
     * Stores a fresh token for the session, replacing any earlier one; afterwards the
     * new token, and no other candidate, validates for that session.
     */
    method CreateToken(sessionID: string, entropy: Result<seq<Byte>>, now: int) returns (r: Result<string>)
      requires Valid()
      requires entropy.Ok? ==> |entropy.value| == CsrfTokenLength
      modifies this
      ensures Valid()
      ensures r == GenerateCSRFToken(entropy)
      ensures r.Err? ==> tokens == old(tokens)
      ensures r.Ok? ==> tokens == old(tokens)[sessionID := CsrfToken(r.value, now)]
      ensures r.Ok? ==> forall c :: Accepts(Lookup(tokens, sessionID), c, now) <==> c == r.value
      ensures r.Ok? ==> Current(Lookup(tokens, sessionID), now) == r.value
    {
      r := GenerateCSRFToken(entropy);
      if r.Err? {
        return;
      }
      tokens := tokens[sessionID := CsrfToken(r.value, now)];
    }

    method ValidateToken(sessionID: string, token: string, now: int) returns (ok: bool)
      ensures ok == Accepts(Lookup(tokens, sessionID), token, now)
      ensures ok ==> sessionID in tokens && tokens[sessionID].token == token
    {
      if sessionID !in tokens {
        return false;
      }
      var stored := tokens[sessionID];
      if now - stored.createdAt > CsrfTokenExpiry {
        return false;
      }
      ok := stored.token == token;
    }

    method InvalidateToken(sessionID: string)
      requires Valid()
      modifies this
      ensures Valid()
      ensures tokens == old(tokens) - {sessionID}
      ensures forall c, now :: !Accepts(Lookup(tokens, sessionID), c, now)
      ensures forall now :: Current(Lookup(tokens, sessionID), now) == ""
    {
      tokens := tokens - {sessionID};
    }

    method GetToken(sessionID: string, now: int) returns (token: string)
      ensures token == Current(Lookup(tokens, sessionID), now)
      ensures Valid() ==> (token == "" <==> sessionID !in tokens || Expired(tokens[sessionID], now))
    {
      if sessionID !in tokens {
        return "";
      }
      var stored := tokens[sessionID];
      if now - stored.createdAt > CsrfTokenExpiry {
        return "";
      }
      token := stored.token;
    }

    /** One pass of the background sweep, at `now`. */
    method Sweep(now: int)
      requires Valid()
      modifies this
      ensures Valid()
      ensures tokens == Unexpired(old(tokens), now)
    {
      var pending := tokens.Keys;
      while pending != {}
        invariant pending <= old(tokens).Keys
        invariant tokens.Keys == set k | k in old(tokens) && (k in pending || !Expired(old(tokens)[k], now))
        invariant forall k :: k in tokens ==> tokens[k] == old(tokens)[k]
        decreases pending
      {
        var key :| key in pending;
        if now - tokens[key].createdAt > CsrfTokenExpiry {
          tokens := tokens - {key};
        }
        pending := pending - {key};
      }
    }
  }

  // ---------------------------------------------------------------------------
  // Requests and the cookie
  // ---------------------------------------------------------------------------

  /**
   * The parts of an inbound request the guard reads: the HTTP method (`verb`), the parsed form
   * values, the headers (under their canonical names) and the cookies, each by name.
   */
  datatype Request = Request(verb: string, form: map<string, string>, headers: map<string, string>, cookies: map<string, string>)

  /** r.FormValue: "" when the field is absent. */
  function FormValue(r: Request, name: string): string {
    if name in r.form then r.form[name] else ""
  }

  /** r.Header.Get: "" when the header is absent. */
  function HeaderValue(r: Request, name: string): string {
    if name in r.headers then r.headers[name] else ""
  }

  /** The token a request submits: a non-empty form field, else a non-empty header, else the cookie. */
  function GetCSRFTokenFromRequest(r: Request): (token: string)
    ensures token != "" ==> token in {FormValue(r, CSRFFormFieldName), HeaderValue(r, CSRFHeaderName)}
                            || (CSRFCookieName in r.cookies && token == r.cookies[CSRFCookieName])
    ensures token == "" ==> FormValue(r, CSRFFormFieldName) == "" && HeaderValue(r, CSRFHeaderName) == ""
  {
    var form := FormValue(r, CSRFFormFieldName);
    if form != "" then form
    else
      var header := HeaderValue(r, CSRFHeaderName);
      if header != "" then header
      else if CSRFCookieName in r.cookies then r.cookies[CSRFCookieName]
      else ""
  }

  /** A non-empty form field decides the token whatever the header and cookies say. */
  lemma FormTakesPrecedence(r: Request, headers: map<string, string>, cookies: map<string, string>)
    requires FormValue(r, CSRFFormFieldName) != ""
    ensures GetCSRFTokenFromRequest(r.(headers := headers, cookies := cookies)) == FormValue(r, CSRFFormFieldName)
  {
  }

  /** Without a form field, a non-empty header decides the token whatever the cookies say. */
  lemma HeaderBeatsCookie(r: Request, cookies: map<string, string>)
    requires FormValue(r, CSRFFormFieldName) == "" && HeaderValue(r, CSRFHeaderName) != ""
    ensures GetCSRFTokenFromRequest(r.(cookies := cookies)) == HeaderValue(r, CSRFHeaderName)
  {
  }

  /** With neither form field nor header, the cookie's value, or "" without the cookie. */
  lemma CookieIsTheFallback(r: Request)
    requires FormValue(r, CSRFFormFieldName) == "" && HeaderValue(r, CSRFHeaderName) == ""
    ensures GetCSRFTokenFromRequest(r) == (if CSRFCookieName in r.cookies then r.cookies[CSRFCookieName] else "")
  {
  }

  /** The session cookie's value, or "" without the cookie. */
  function GetSessionIDFromRequest(r: Request): (sessionID: string)
    ensures sessionID != "" ==> SessionCookieName in r.cookies
    ensures SessionCookieName in r.cookies ==> sessionID == r.cookies[SessionCookieName]
  {
    if SessionCookieName in r.cookies then r.cookies[SessionCookieName] else ""
  }

  datatype SameSite = SameSiteDefault | SameSiteLax | SameSiteStrict | SameSiteNone

  datatype Cookie = Cookie(name: string, value: string, maxAge: int, httpOnly: bool, secure: bool, sameSite: SameSite, path: string)

  /**
   * The cookie SetCSRFCookie writes: it lives exactly as long as the token (its
   * Max-Age in seconds is the token expiry), travels only over HTTPS, only on
   * same-site requests, for the whole site, and is readable by page scripts.
   */
  function CSRFCookie(token: string): (c: Cookie)
    ensures c.name == CSRFCookieName && c.value == token
    ensures c.maxAge * Second == CsrfTokenExpiry
    ensures c.secure && c.sameSite == SameSiteStrict && c.path == "/"
    ensures !c.httpOnly
  {
    Cookie(CSRFCookieName, token, CsrfTokenExpiry / Second, false, true, SameSiteStrict, "/")
  }
}
