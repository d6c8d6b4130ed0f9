/** The frontend's request gate: pages outside the public ones need one of
  * the access cookies, and a request without one is sent to the login page
  * with its own address in `next`. */
module Middleware {
  import opened Wrappers
  import Text
  import Uri

  /** The cookie names used when the environment does not name any. */
  const DefaultCookieNames := "sb-access-token,access_token"

  const LoginPath := "/agent/login"

  /** `parts.map(trim).filter(Boolean)`: the non-empty images of `parts`
    * under `trim`, in order. */
  function NonEmptyMapped(parts: seq<string>, trim: string -> string): (r: seq<string>)
    ensures |r| <= |parts|
    ensures forall i :: 0 <= i < |r| ==> r[i] != ""
  {
    if parts == [] then []
    else
      var n := trim(parts[0]);
      if n == "" then NonEmptyMapped(parts[1..], trim) else [n] + NonEmptyMapped(parts[1..], trim)
  }

  /** A name is kept exactly when it is the non-empty image of some part. */
  lemma {:induction false} NonEmptyMappedHas(parts: seq<string>, trim: string -> string, name: string)
    ensures name in NonEmptyMapped(parts, trim) <==>
      name != "" && exists j :: 0 <= j < |parts| && trim(parts[j]) == name
  {
    if parts != [] {
      NonEmptyMappedHas(parts[1..], trim, name);
      if exists j :: 0 <= j < |parts| && trim(parts[j]) == name {
        var j :| 0 <= j < |parts| && trim(parts[j]) == name;
        if j > 0 {
          assert parts[1..][j - 1] == parts[j];
        }
      }
      if exists j :: 0 <= j < |parts[1..]| && trim(parts[1..][j]) == name {
        var j :| 0 <= j < |parts[1..]| && trim(parts[1..][j]) == name;
        assert parts[j + 1] == parts[1..][j];
      }
    }
  }

  /** `ACCESS_COOKIE_NAMES`: the environment value (the default only when
    * the variable is unset) split at commas, trimmed, blanks dropped. */
  function CookieNames(env: Option<string>): (r: seq<string>)
    ensures forall i :: 0 <= i < |r| ==> r[i] != "" && ',' !in r[i]
    ensures forall i :: 0 <= i < |r| ==> Text.JsTrim(r[i]) == r[i]
  {
    var parts := Text.Split(env.GetOr(DefaultCookieNames), ',');
    var r := NonEmptyMapped(parts, Text.JsTrim);
    forall i | 0 <= i < |r|
      ensures ',' !in r[i] && Text.JsTrim(r[i]) == r[i]
    {
      NonEmptyMappedHas(parts, Text.JsTrim, r[i]);
      var j :| 0 <= j < |parts| && Text.JsTrim(parts[j]) == r[i];
      NoCommaInTrim(parts[j]);
      Text.TrimIdempotent(parts[j], Text.IsJsSpace);
    }
    r
  }

  lemma NoCommaInTrim(s: string)
    requires ',' !in s
    ensures ',' !in Text.JsTrim(s)
  {
    var t := Text.JsTrim(s);
    var i :| 0 <= i <= |s| && Text.At(s, i, t);
    forall k | 0 <= k < |t|
      ensures t[k] != ','
    {
      assert t[k] == s[i + k];
    }
  }

  /** An environment variable set to "" gives no names at all: `??` only
    * falls back to the default when the variable is unset. */
  lemma EmptyEnvNamesNothing()
    ensures CookieNames(Some("")) == []
  {
    assert Text.Split("", ',') == [""];
  }

  /** `Split` of two comma-free pieces joined by a comma. */
  lemma SplitPair(a: string, b: string)
    requires ',' !in a && ',' !in b
    ensures Text.Split(a + [','] + b, ',') == [a, b]
  {
    var s := a + [','] + b;
    assert s[|a|] == ',' && s[..|a|] == a && s[|a| + 1..] == b;
    assert Text.IndexOf(s, ',') == |a| by {
      Text.SplitFirstAt(s, ',', |a|);
    }
    assert Text.Split(b, ',') == [b];
  }

  /** Two comma-free names that do not begin or end with white space are
    * read back as they are. */
  lemma TwoNames(a: string, b: string)
    requires ',' !in a && ',' !in b
    requires a != [] && !Text.IsJsSpace(a[0]) && !Text.IsJsSpace(a[|a| - 1])
    requires b != [] && !Text.IsJsSpace(b[0]) && !Text.IsJsSpace(b[|b| - 1])
    ensures CookieNames(Some(a + [','] + b)) == [a, b]
  {
    SplitPair(a, b);
    Text.TrimFixed(a, Text.IsJsSpace);
    Text.TrimFixed(b, Text.IsJsSpace);
    assert NonEmptyMapped([a, b], Text.JsTrim) == [a] + NonEmptyMapped([b], Text.JsTrim);
  }

  /** Without the variable, the gate looks for the two default cookies. */
  lemma DefaultCookieNamesParsed()
    ensures CookieNames(None) == ["sb-access-token", "access_token"]
  {
    var a := "sb-access-token";
    var b := "access_token";
    assert DefaultCookieNames == a + [','] + b;
    assert a[0] == 's' && a[|a| - 1] == 'n' && b[0] == 'a' && b[|b| - 1] == 'n';
    assert ',' !in a && ',' !in b;
    TwoNames(a, b);
  }

  /** Login, the auth API and the health check pass without a cookie. */
  predicate IsPublicPath(pathname: string)
  {
    Text.StartsWith(pathname, LoginPath) || Text.StartsWith(pathname, "/api/auth/") || pathname == "/health"
  }

  /** Some named cookie is present with a non-empty value. */
  predicate HasAccessCookie(names: seq<string>, cookies: map<string, string>)
  {
    exists i :: 0 <= i < |names| && names[i] in cookies && cookies[names[i]] != ""
  }

  datatype Decision = Next | Redirect(pathname: string, search: string)

  /** The address the login page is to return to: the path, with the
    * query when there is one. */
  function ReturnTarget(pathname: string, search: string): string
  {
    if search != "" then pathname + search else pathname
  }

  /** `middleware(req)`: public paths and requests carrying an access
    * cookie go through; any other request is redirected to the login page,
    * whose query holds the encoded return target. */
  function Gate(env: Option<string>, pathname: string, search: string, cookies: map<string, string>): (r: Decision)
    ensures r.Next? <==> IsPublicPath(pathname) || HasAccessCookie(CookieNames(env), cookies)
    ensures r.Redirect? ==> r.pathname == LoginPath && Text.StartsWith(r.search, "?next=")
    ensures r.Redirect? ==> forall i :: 6 <= i < |r.search| ==> r.search[i] == '%' || Uri.IsUnreserved(r.search[i])
  {
    if IsPublicPath(pathname) then Next
    else if HasAccessCookie(CookieNames(env), cookies) then Next
    else
      var next := Uri.EncodeURIComponent(ReturnTarget(pathname, search));
      var q := "?next=" + next;
      assert q[6..] == next;
      Redirect(LoginPath, q)
  }

  /** Decoding `next` gives back exactly the path and query the user asked
    * for, so the login page can send them on. */
  lemma RedirectCarriesTarget(env: Option<string>, pathname: string, search: string, cookies: map<string, string>)
    requires Gate(env, pathname, search, cookies).Redirect?
    ensures Uri.DecodeURIComponent(Gate(env, pathname, search, cookies).search[6..]) == pathname + search
  {
    var next := Uri.EncodeURIComponent(ReturnTarget(pathname, search));
    assert ("?next=" + next)[6..] == next;
    Uri.DecodeEncode(ReturnTarget(pathname, search));
    if search == "" {
      assert pathname + search == pathname;
    }
  }

  /** The login page is itself public, so a redirect never loops. */
  lemma LoginPageOpen(env: Option<string>, search: string, cookies: map<string, string>)
    ensures Gate(env, LoginPath, search, cookies) == Next
  {
    assert Text.StartsWith(LoginPath, LoginPath);
  }
}
