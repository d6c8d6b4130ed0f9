/** The token dependency of the backend (`deps.py`): the access token of a
  * request comes from an `Authorization: Bearer` header (section 2.1 of
  * RFC 6750) or else from the `sb-access-token` cookie. */
module Deps {
  import opened Wrappers
  import opened Text

  /** `bearer_token(request, authorization)`, `cookie` standing for the
    * value of the `sb-access-token` cookie. */
  function BearerToken(authorization: Option<string>, cookie: Option<string>): (r: Reply<string>)
    ensures Truthy(authorization) && StartsWith(Lower(authorization.value), "bearer ")
      ==> r == Done(PyStrip(authorization.value[7..]))
    ensures !(Truthy(authorization) && StartsWith(Lower(authorization.value), "bearer ")) && Truthy(cookie)
      ==> r == Done(cookie.value)
    ensures r.Raise? <==> !(Truthy(authorization) && StartsWith(Lower(authorization.value), "bearer ")) && !Truthy(cookie)
    ensures r.Raise? ==> r.error == HttpError(401, "missing token")
  {
    if Truthy(authorization) && StartsWith(Lower(authorization.value), "bearer ") then
      BearerPrefixSplit(authorization.value);
      Done(PyStrip(SplitFirst(authorization.value, ' ').1))
    else if Truthy(cookie) then Done(cookie.value)
    else Raise(HttpError(401, "missing token"))
  }

  /** A header whose lower-cased form starts with "bearer " has its first
    * space right after the scheme, so `split(" ", 1)[1]` is the text after
    * "bearer ". */
  lemma BearerPrefixSplit(a: string)
    requires StartsWith(Lower(a), "bearer ")
    ensures ' ' in a && SplitFirst(a, ' ') == (a[..6], a[7..])
  {
    assert Lower(a)[6] == ' ';
    forall i | 0 <= i < 6 ensures a[i] != ' ' {
      assert Lower(a)[i] == "bearer "[i];
    }
    SplitFirstAt(a, ' ', 6);
  }

  /** The header always wins over the cookie, and gives back the token it
    * carries. */
  lemma BearerHeaderRoundTrip(token: string, cookie: Option<string>)
    requires token == [] || (!IsPySpace(token[0]) && !IsPySpace(token[|token| - 1]))
    ensures BearerToken(Some("Bearer " + token), cookie) == Done(token)
  {
    var a := "Bearer " + token;
    assert a[7..] == token;
    assert Lower(a)[..7] == "bearer ";
    TrimFixed(token, IsPySpace);
  }

  /** "Bearer" followed only by spaces yields the empty token: there is no
    * check that the token is non-empty. */
  lemma BlankBearerAccepted(spaces: string, cookie: Option<string>)
    requires forall i :: 0 <= i < |spaces| ==> spaces[i] == ' '
    ensures BearerToken(Some("Bearer " + spaces), cookie) == Done("")
  {
    var a := "Bearer " + spaces;
    assert a[7..] == spaces;
    assert Lower(a)[..7] == "bearer ";
    TrimAllSpace(spaces, IsPySpace);
  }
}
