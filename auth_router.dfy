/** The session endpoints of the backend (`routers/auth.py`): the cookie
  * settings read from the environment, the check of the auth service URL,
  * and the cookie handling of `login` and `me`. The calls to the auth
  * service are inputs: their answer, or how they failed. */
module AuthRouter {
  import opened Wrappers
  import opened Text

  /** `_ensure_samesite(s)`, `secure` standing for `SECURE_COOKIE`. */
  function EnsureSameSite(s: string, secure: bool): (r: Result<string>)
    ensures r.Success? <==> Lower(s) in {"lax", "strict", "none"} && (Lower(s) == "none" ==> secure)
    ensures r.Success? ==> r.value == Lower(s)
  {
    var s := Lower(s);
    if s !in {"lax", "strict", "none"} then Failure("COOKIE_SAMESITE must be lax|strict|none (got: " + s + ")")
    else if s == "none" && !secure then Failure("When COOKIE_SAMESITE=none, COOKIE_SECURE must be true")
    else Success(s)
  }

  lemma LowerIdempotent(s: string)
    ensures Lower(Lower(s)) == Lower(s)
  {
  }

  /** An accepted setting is already normal: checking it again accepts it
    * unchanged. */
  lemma EnsureSameSiteIdempotent(s: string, secure: bool)
    requires EnsureSameSite(s, secure).Success?
    ensures EnsureSameSite(EnsureSameSite(s, secure).value, secure) == EnsureSameSite(s, secure)
  {
    LowerIdempotent(s);
  }

  /** The cookie attributes shared by both session cookies. */
  datatype CookieConfig = CookieConfig(secure: bool, sameSite: string, domain: Option<string>)

  /** The module-level settings: `COOKIE_SECURE` (default "false"),
    * `COOKIE_SAMESITE` (default "lax") and `COOKIE_DOMAIN` (empty means
    * none). An invalid SameSite setting stops the module from loading. */
  function LoadCookieConfig(secureEnv: Option<string>, sameSiteEnv: Option<string>, domainEnv: Option<string>)
    : (r: Result<CookieConfig>)
    ensures r.Success? ==> (r.value.secure <==> Lower(secureEnv.GetOr("false")) == "true")
    ensures r.Success? ==> r.value.sameSite in {"lax", "strict", "none"}
    ensures r.Success? && r.value.sameSite == "none" ==> r.value.secure
    ensures r.Success? ==> (r.value.domain.Some? <==> Truthy(domainEnv))
    ensures r.Success? ==> (r.value.domain.Some? ==> r.value.domain == domainEnv)
  {
    var secure := Lower(secureEnv.GetOr("false")) == "true";
    var sameSite := EnsureSameSite(Lower(sameSiteEnv.GetOr("lax")), secure);
    if sameSite.Failure? then Failure(sameSite.error)
    else Success(CookieConfig(secure, sameSite.value, if Truthy(domainEnv) then domainEnv else None))
  }

  /** With nothing set, cookies are not secure, SameSite is lax and no
    * domain is given. */
  lemma DefaultCookieConfig()
    ensures LoadCookieConfig(None, None, None) == Success(CookieConfig(false, "lax", None))
  {
    assert Lower("false") == "false";
    assert Lower("lax") == "lax";
    LowerIdempotent("lax");
  }

  /** `s.rstrip(c)` for one character: every trailing `c` removed. */
  function RStrip(s: string, c: char): (r: string)
    ensures |r| <= |s| && r == s[..|r|]
    ensures r == [] || r[|r| - 1] != c
    ensures forall i :: |r| <= i < |s| ==> s[i] == c
  {
    if s != [] && s[|s| - 1] == c then RStrip(s[..|s| - 1], c) else s
  }

  /** The characters `urlsplit` strips from the front of a URL (C0 controls
    * and space). */
  predicate IsC0OrSpace(c: char) { c <= ' ' }

  /** Tab, carriage return and line feed, which `urlsplit` removes
    * everywhere. */
  predicate IsUnsafe(c: char) { c == '\t' || c == '\r' || c == '\n' }

  function RemoveUnsafe(s: string): (r: string)
    ensures |r| <= |s|
  {
    if s == [] then []
    else if IsUnsafe(s[0]) then RemoveUnsafe(s[1..])
    else [s[0]] + RemoveUnsafe(s[1..])
  }

  lemma {:induction false} RemoveUnsafeAppend(a: string, b: string)
    ensures RemoveUnsafe(a + b) == RemoveUnsafe(a) + RemoveUnsafe(b)
  {
    if a != [] {
      assert (a + b)[0] == a[0] && (a + b)[1..] == a[1..] + b;
      RemoveUnsafeAppend(a[1..], b);
    } else {
      assert a + b == b;
    }
  }

  predicate IsAsciiAlpha(c: char) { 'a' <= c <= 'z' || 'A' <= c <= 'Z' }

  predicate IsSchemeChar(c: char) { IsAsciiAlpha(c) || '0' <= c <= '9' || c == '+' || c == '-' || c == '.' }

  /** What `urlsplit` looks at: leading controls and spaces stripped, tabs
    * and line breaks removed. */
  function CleanUrl(url: string): (u: string)
    ensures |u| <= |url|
  {
    RemoveUnsafe(TrimStart(url, IsC0OrSpace))
  }

  /** The scheme of a cleaned URL: the lower-cased text before the first
    * ":", when it starts with a letter and holds only scheme characters;
    * else "". */
  function SchemePart(u: string): (scheme: string)
    ensures |scheme| < |u| || scheme == ""
  {
    var i := IndexOf(u, ':');
    if 0 < i < |u| && IsAsciiAlpha(u[0]) && forall k :: 0 <= k < i ==> IsSchemeChar(u[k]) then
      Lower(u[..i])
    else ""
  }

  /** `urlparse(url).scheme`. */
  function UrlScheme(url: string): (scheme: string)
    ensures |scheme| <= |url|
  {
    SchemePart(CleanUrl(url))
  }

  /** `get_supabase_url()`, `raw` standing for `SUPABASE_URL`: trailing "/"
    * removed, non-empty, and with an http or https scheme. */
  function SupabaseUrl(raw: string): (r: Result<string>)
    ensures r.Success? <==> RStrip(raw, '/') != "" && UrlScheme(RStrip(raw, '/')) in {"http", "https"}
    ensures r.Success? ==> r.value == RStrip(raw, '/') && !EndsWith(r.value, "/")
  {
    var v := RStrip(raw, '/');
    if v == "" then Failure("SUPABASE_URL is not set")
    else if UrlScheme(v) !in {"http", "https"} then Failure("SUPABASE_URL must start with http:// or https:// (got: " + v + ")")
    else Success(v)
  }

  /** Trailing slashes never matter. */
  lemma TrailingSlashIgnored(raw: string)
    ensures SupabaseUrl(raw + "/") == SupabaseUrl(raw)
  {
    assert (raw + "/")[..|raw|] == raw;
  }

  /** An http or https URL that does not end in "/" is accepted as it is. */
  lemma HttpUrlAccepted(scheme: string, rest: string)
    requires scheme == "http" || scheme == "https"
    requires rest != [] && rest[|rest| - 1] != '/'
    ensures SupabaseUrl(scheme + "://" + rest) == Success(scheme + "://" + rest)
  {
    var url := scheme + "://" + rest;
    assert RStrip(url, '/') == url;
    HttpScheme(scheme, rest);
  }

  lemma HttpScheme(scheme: string, rest: string)
    requires scheme == "http" || scheme == "https"
    ensures UrlScheme(scheme + "://" + rest) == scheme
  {
    var head := scheme + "://";
    assert head + rest == scheme + "://" + rest;
    assert forall c :: c in head ==> 'a' <= c <= 'z' || c == ':' || c == '/';
    CleanPrefix(head, rest);
    SchemePartHttp(scheme, RemoveUnsafe(rest));
  }

  /** A prefix without leading blanks or line breaks passes cleaning as it is. */
  lemma CleanPrefix(head: string, rest: string)
    requires head != [] && !IsC0OrSpace(head[0])
    requires forall c :: c in head ==> !IsUnsafe(c)
    ensures CleanUrl(head + rest) == head + RemoveUnsafe(rest)
  {
    TrimStartFixed(head + rest, IsC0OrSpace);
    RemoveUnsafeAppend(head, rest);
    RemoveUnsafeNone(head);
  }

  lemma SchemePartHttp(scheme: string, tail: string)
    requires scheme == "http" || scheme == "https"
    ensures SchemePart(scheme + "://" + tail) == scheme
  {
    var u := scheme + "://" + tail;
    assert u[..|scheme|] == scheme;
    assert IndexOf(u, ':') == |scheme| by {
      IndexOfAt(u, ':', |scheme|);
    }
    assert forall k :: 0 <= k < |scheme| ==> IsSchemeChar(u[k]);
    assert Lower(u[..|scheme|]) == scheme;
  }

  lemma IndexOfAt(s: string, c: char, k: nat)
    requires k < |s| && s[k] == c && c !in s[..k]
    ensures IndexOf(s, c) == k
  {
    SplitFirstAt(s, c, k);
    assert |SplitFirst(s, c).0| == IndexOf(s, c);
  }

  lemma {:induction false} RemoveUnsafeNone(s: string)
    requires forall c :: c in s ==> !IsUnsafe(c)
    ensures RemoveUnsafe(s) == s
  {
    if s != [] {
      RemoveUnsafeNone(s[1..]);
    }
  }

  /** A cookie as `response.set_cookie` writes it. */
  datatype Cookie = Cookie(name: string, value: string, maxAge: int, httpOnly: bool, secure: bool,
                           sameSite: string, path: string, domain: Option<string>)

  /** The attributes both session cookies are set with. */
  function SessionCookie(name: string, value: string, maxAge: int, cfg: CookieConfig): Cookie
  {
    Cookie(name, value, maxAge, true, cfg.secure, cfg.sameSite, "/", cfg.domain)
  }

  /** Fourteen days, in seconds. */
  const RefreshMaxAge: int := 60 * 60 * 24 * 14

  /** The response whose cookies the handlers set. */
  class Response {
    var cookies: seq<Cookie>

    constructor()
      ensures cookies == []
    {
      cookies := [];
    }

    method SetCookie(c: Cookie)
      modifies this
      ensures cookies == old(cookies) + [c]
    {
      cookies := cookies + [c];
    }
  }

  /** The token fields of an auth service answer. */
  datatype TokenData = TokenData(accessToken: Option<string>, refreshToken: Option<string>, expiresIn: Option<int>)

  /** The error answer of the password grant: its JSON body, when it has
    * one, and its text. */
  datatype GrantError = GrantError(json: Option<ErrorBody>, text: string)
  datatype ErrorBody = ErrorBody(errorDescription: Option<string>, error: Option<string>)

  /** How the password grant ended: tokens, an error status, or a failure
    * to reach the service (which `login` does not catch). */
  datatype Grant = Granted(data: TokenData) | Refused(failure: GrantError) | GrantUnreachable

  /** The detail of the 401 that a refused password grant raises: the
    * error description, else the error, else the body text, else
    * "authentication failed". */
  function GrantFailureDetail(e: GrantError): (d: string)
    ensures d != ""
    ensures e.json.Some? && Truthy(e.json.value.errorDescription) ==> d == e.json.value.errorDescription.value
    ensures e.json.Some? && !Truthy(e.json.value.errorDescription) && Truthy(e.json.value.error)
      ==> d == e.json.value.error.value
    ensures (e.json.None? || (!Truthy(e.json.value.errorDescription) && !Truthy(e.json.value.error)))
      ==> d == (if e.text != "" then e.text else "authentication failed")
  {
    var detail :=
      if e.json.None? then e.text
      else if Truthy(e.json.value.errorDescription) then e.json.value.errorDescription.value
      else if Truthy(e.json.value.error) then e.json.value.error.value
      else e.text;
    if detail != "" then detail else "authentication failed"
  }

  /** An exception a handler does not catch: the framework answers 500. */
  const Unhandled := HttpError(500, "Internal Server Error")

  /** `login(req, response)`: both tokens must be present; the access
    * cookie lives `expires_in` seconds (3600 when absent), the refresh
    * cookie fourteen days. */
  method Login(response: Response, grant: Grant, cfg: CookieConfig) returns (r: Reply<bool>)
    modifies response
    ensures grant.Refused? ==> r == Raise(HttpError(401, GrantFailureDetail(grant.failure)))
    ensures grant.GrantUnreachable? ==> r == Raise(Unhandled)
    ensures grant.Granted? && !(Truthy(grant.data.accessToken) && Truthy(grant.data.refreshToken))
      ==> r == Raise(HttpError(502, "invalid token response from auth"))
    ensures r.Raise? ==> response.cookies == old(response.cookies)
    ensures r.Done? <==> grant.Granted? && Truthy(grant.data.accessToken) && Truthy(grant.data.refreshToken)
    ensures r.Done? ==> r.value && response.cookies == old(response.cookies) + [
      SessionCookie("sb-access-token", grant.data.accessToken.value, grant.data.expiresIn.GetOr(3600), cfg),
      SessionCookie("sb-refresh-token", grant.data.refreshToken.value, RefreshMaxAge, cfg)]
  {
    if grant.Refused? {
      return Raise(HttpError(401, GrantFailureDetail(grant.failure)));
    }
    if grant.GrantUnreachable? {
      return Raise(Unhandled);
    }
    var data := grant.data;
    var expiresIn := data.expiresIn.GetOr(3600);
    if !Truthy(data.accessToken) || !Truthy(data.refreshToken) {
      return Raise(HttpError(502, "invalid token response from auth"));
    }
    response.SetCookie(SessionCookie("sb-access-token", data.accessToken.value, expiresIn, cfg));
    response.SetCookie(SessionCookie("sb-refresh-token", data.refreshToken.value, RefreshMaxAge, cfg));
    return Done(true);
  }

  /** How a user lookup ended: the user, an error status, a network error
    * or any other exception (by class name). */
  datatype UserCall<U> = UserFound(user: U) | UserStatus(status: int) | UserNetwork(name: string) | UserBroken(name: string)

  /** `me(request, response)`: `access`/`refresh` are the two cookies,
    * `first` the lookup with the access token; after an expired access
    * token, `refreshed` is the refresh answer (`None` when that call
    * failed) and `second` the lookup with the new access token. */
  method Me<U>(response: Response, access: Option<string>, refresh: Option<string>, first: UserCall<U>,
               refreshed: Option<TokenData>, second: UserCall<U>, cfg: CookieConfig)
    returns (r: Reply<U>)
    modifies response
    ensures !Truthy(access) ==> r == Raise(HttpError(401, "no access token"))
    ensures Truthy(access) && first.UserFound? ==> r == Done(first.user)
    ensures Truthy(access) && first.UserStatus? && !(first.status == 401 && Truthy(refresh))
      ==> r == Raise(HttpError(401, "unauthorized"))
    ensures Truthy(access) && first.UserNetwork? ==> r == Raise(HttpError(503, "auth upstream unavailable: " + first.name))
    ensures Truthy(access) && first.UserBroken? ==> r == Raise(HttpError(500, "auth me failed: " + first.name))
    ensures Truthy(access) && first == UserStatus(401) && Truthy(refresh)
      ==> if refreshed.Some? && Truthy(refreshed.value.accessToken) then
            && response.cookies == old(response.cookies) + [
                 SessionCookie("sb-access-token", refreshed.value.accessToken.value, refreshed.value.expiresIn.GetOr(3600), cfg),
                 SessionCookie("sb-refresh-token",
                               if Truthy(refreshed.value.refreshToken) then refreshed.value.refreshToken.value else refresh.value,
                               RefreshMaxAge, cfg)]
            && r == (if second.UserFound? then Done(second.user) else Raise(HttpError(401, "refresh failed")))
          else r == Raise(HttpError(401, "refresh failed"))
    ensures !(Truthy(access) && first == UserStatus(401) && Truthy(refresh) && refreshed.Some?
              && Truthy(refreshed.value.accessToken))
      ==> response.cookies == old(response.cookies)
  {
    if !Truthy(access) {
      return Raise(HttpError(401, "no access token"));
    }
    match first {
      case UserFound(user) =>
        return Done(user);
      case UserStatus(status) =>
        if status == 401 && Truthy(refresh) {
          if refreshed.None? {
            return Raise(HttpError(401, "refresh failed"));
          }
          var data := refreshed.value;
          var newRefresh := if Truthy(data.refreshToken) then data.refreshToken.value else refresh.value;
          var expiresIn := data.expiresIn.GetOr(3600);
          if !Truthy(data.accessToken) {
            return Raise(HttpError(401, "refresh failed"));
          }
          response.SetCookie(SessionCookie("sb-access-token", data.accessToken.value, expiresIn, cfg));
          response.SetCookie(SessionCookie("sb-refresh-token", newRefresh, RefreshMaxAge, cfg));
          if second.UserFound? {
            return Done(second.user);
          }
          return Raise(HttpError(401, "refresh failed"));
        }
        return Raise(HttpError(401, "unauthorized"));
      case UserNetwork(name) =>
        return Raise(HttpError(503, "auth upstream unavailable: " + name));
      case UserBroken(name) =>
        return Raise(HttpError(500, "auth me failed: " + name));
    }
  }
}
