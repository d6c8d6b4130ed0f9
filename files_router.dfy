/** The files router of the backend (`routers/files.py`): where the access
  * token of a request comes from, and the PostgREST query that lists a
  * user's attachments. The create, update and delete handlers forward
  * their arguments to database procedures and are not modelled. */
module FilesRouter {
  import opened Wrappers
  import opened Text
  import Deps

  /** `dict(pairs).get(key)`: the value of the last pair with that key, as a
    * Python dict built from pairs keeps the last duplicate. */
  function DictGet(pairs: seq<(string, string)>, key: string): (r: Option<string>)
    ensures r.None? <==> forall i :: 0 <= i < |pairs| ==> pairs[i].0 != key
    ensures r.Some? ==> (key, r.value) in pairs
  {
    if pairs == [] then None
    else if pairs[|pairs| - 1].0 == key then Some(pairs[|pairs| - 1].1)
    else
      var r := DictGet(pairs[..|pairs| - 1], key);
      assert forall i :: 0 <= i < |pairs| - 1 ==> pairs[..|pairs| - 1][i] == pairs[i];
      r
  }

  /** A later pair overrides an earlier one with the same key, and leaves the
    * other keys alone. */
  lemma DictGetLastWins(pairs: seq<(string, string)>, k: string, v: string, key: string)
    ensures DictGet(pairs + [(k, v)], key) == if k == key then Some(v) else DictGet(pairs, key)
  {
    assert (pairs + [(k, v)])[..|pairs|] == pairs;
  }

  /** With distinct keys, every pair is found under its own key. */
  lemma DictGetDistinct(pairs: seq<(string, string)>, i: nat)
    requires i < |pairs| && forall a, b :: 0 <= a < b < |pairs| ==> pairs[a].0 != pairs[b].0
    ensures DictGet(pairs, pairs[i].0) == Some(pairs[i].1)
  {
    var r := DictGet(pairs, pairs[i].0);
    var j :| 0 <= j < |pairs| && pairs[j] == (pairs[i].0, r.value);
  }

  lemma DictGetPresent(pairs: seq<(string, string)>, k: string, v: Option<string>, key: string)
    ensures DictGet(pairs + Present(k, v), key) == if k == key && v.Some? then v else DictGet(pairs, key)
  {
    if v.Some? {
      DictGetLastWins(pairs, k, v.value, key);
    } else {
      assert pairs + Present(k, v) == pairs;
    }
  }

  /** `c.strip().split("=", 1)` for a piece `c` that contains "=". */
  function CookiePiece(c: string): (kv: (string, string))
    requires '=' in c
    ensures kv.0 + "=" + kv.1 == PyStrip(c)
    ensures '=' !in kv.0
  {
    TrimKeeps(c, IsPySpace, '=');
    SplitFirst(PyStrip(c), '=')
  }

  /** The pairs of the cookie parser: every ";"-separated piece that
    * contains "=", in order. */
  function CookiePairsOf(pieces: seq<string>): (r: seq<(string, string)>)
    ensures |r| <= |pieces|
    ensures forall i :: 0 <= i < |r| ==> '=' !in r[i].0
  {
    if pieces == [] then []
    else
      var last := pieces[|pieces| - 1];
      CookiePairsOf(pieces[..|pieces| - 1]) + (if '=' in last then [CookiePiece(last)] else [])
  }

  lemma CookiePairsOne(c: string)
    requires '=' in c
    ensures CookiePairsOf([c]) == [CookiePiece(c)]
  {
    assert [c][..0] == [];
  }

  function CookiePairs(header: string): seq<(string, string)>
  {
    CookiePairsOf(Split(header, ';'))
  }

  /** The header branch of `get_access_token`: `split(" ", 1)` gives two
    * parts, the first is "bearer" in any case, and the second is not blank. */
  predicate HeaderAccepted(authorization: Option<string>)
  {
    && Truthy(authorization)
    && ' ' in authorization.value
    && Lower(SplitFirst(authorization.value, ' ').0) == "bearer"
    && PyStrip(SplitFirst(authorization.value, ' ').1) != ""
  }

  /** `get_access_token(authorization, cookie)`: the header token when the
    * header is accepted; else the `sb-access-token` cookie, else the
    * `access_token` cookie, when non-empty; else 401. */
  function GetAccessToken(authorization: Option<string>, cookieHeader: Option<string>): (r: Reply<string>)
    ensures r.Done? ==> r.value != ""
    ensures HeaderAccepted(authorization) ==> r == Done(PyStrip(SplitFirst(authorization.value, ' ').1))
    ensures !HeaderAccepted(authorization) && Truthy(cookieHeader)
      && Truthy(DictGet(CookiePairs(cookieHeader.value), "sb-access-token"))
      ==> r == Done(DictGet(CookiePairs(cookieHeader.value), "sb-access-token").value)
    ensures !HeaderAccepted(authorization) && Truthy(cookieHeader)
      && !Truthy(DictGet(CookiePairs(cookieHeader.value), "sb-access-token"))
      && Truthy(DictGet(CookiePairs(cookieHeader.value), "access_token"))
      ==> r == Done(DictGet(CookiePairs(cookieHeader.value), "access_token").value)
    ensures r.Raise? <==>
      && !HeaderAccepted(authorization)
      && !(Truthy(cookieHeader)
           && (Truthy(DictGet(CookiePairs(cookieHeader.value), "sb-access-token"))
               || Truthy(DictGet(CookiePairs(cookieHeader.value), "access_token"))))
    ensures r.Raise? ==> r.error == HttpError(401, "missing bearer token")
  {
    if HeaderAccepted(authorization) then Done(PyStrip(SplitFirst(authorization.value, ' ').1))
    else
      var token :=
        if !Truthy(cookieHeader) then None
        else
          var cookies := CookiePairs(cookieHeader.value);
          var first := DictGet(cookies, "sb-access-token");
          if Truthy(first) then first else DictGet(cookies, "access_token");
      if Truthy(token) then Done(token.value)
      else Raise(HttpError(401, "missing bearer token"))
  }

  lemma LowerBearer()
    ensures Lower("Bearer") == "bearer"
  {
  }

  lemma BearerHeaderAccepted(token: string)
    requires token != [] && !IsPySpace(token[0]) && !IsPySpace(token[|token| - 1])
    ensures HeaderAccepted(Some("Bearer " + token))
    ensures PyStrip(SplitFirst("Bearer " + token, ' ').1) == token
  {
    var a := "Bearer " + token;
    assert a[..7] == "Bearer ";
    Deps.BearerPrefixSplit(a);
    assert a[..6] == "Bearer" && a[7..] == token;
    LowerBearer();
    TrimFixed(token, IsPySpace);
  }

  /** A well-formed bearer header gives back its token, whatever the
    * cookies say. */
  lemma HeaderRoundTrip(token: string, cookieHeader: Option<string>)
    requires token != [] && !IsPySpace(token[0]) && !IsPySpace(token[|token| - 1])
    ensures GetAccessToken(Some("Bearer " + token), cookieHeader) == Done(token)
  {
    BearerHeaderAccepted(token);
  }

  lemma SessionCookieText(value: string)
    ensures var h := "sb-access-token=" + value;
      && |h| == 16 + |value| && h[15] == '=' && '=' !in h[..15]
      && h[..15] == "sb-access-token" && h[16..] == value
      && (';' !in value ==> ';' !in h)
  {
    var h := "sb-access-token=" + value;
    assert h[..15] == "sb-access-token";
    assert '=' !in "sb-access-token";
    assert ';' !in "sb-access-token=";
  }

  lemma SessionCookiePiece(value: string)
    requires value != [] && !IsPySpace(value[|value| - 1])
    ensures '=' in "sb-access-token=" + value
    ensures CookiePiece("sb-access-token=" + value) == ("sb-access-token", value)
  {
    var h := "sb-access-token=" + value;
    SessionCookieText(value);
    SplitFirstAt(h, '=', 15);
    assert h[|h| - 1] == value[|value| - 1];
    TrimFixed(h, IsPySpace);
  }

  /** A header without ";" is one piece. */
  lemma SingleCookiePairs(h: string)
    requires ';' !in h && '=' in h
    ensures CookiePairs(h) == [CookiePiece(h)]
  {
    assert Split(h, ';') == [h];
    CookiePairsOne(h);
  }

  /** Without an accepted header, a non-empty session cookie is the token. */
  lemma SessionCookieWins(h: string, v: string)
    requires h != "" && v != "" && DictGet(CookiePairs(h), "sb-access-token") == Some(v)
    ensures GetAccessToken(None, Some(h)) == Done(v)
  {
  }

  /** A cookie header holding only the session cookie gives back its value. */
  lemma SessionCookieRoundTrip(value: string)
    requires value != [] && ';' !in value && !IsPySpace(value[|value| - 1])
    ensures GetAccessToken(None, Some("sb-access-token=" + value)) == Done(value)
  {
    var h := "sb-access-token=" + value;
    assert CookiePairs(h) == [("sb-access-token", value)] by {
      SessionCookieText(value);
      SessionCookiePiece(value);
      SingleCookiePairs(h);
    }
    assert DictGet(CookiePairs(h), "sb-access-token") == Some(value) by {
      DictGetLastWins([], "sb-access-token", value, "sb-access-token");
      assert [] + [("sb-access-token", value)] == CookiePairs(h);
    }
    SessionCookieWins(h, value);
  }

  /** "Bearer" followed only by spaces is accepted by `deps.bearer_token`
    * as the empty token, but refused here, where the request then falls
    * back to the cookies. */
  lemma BlankBearerRefused(spaces: string)
    requires forall i :: 0 <= i < |spaces| ==> spaces[i] == ' '
    ensures Deps.BearerToken(Some("Bearer " + spaces), None) == Done("")
    ensures GetAccessToken(Some("Bearer " + spaces), None) == Raise(HttpError(401, "missing bearer token"))
  {
    Deps.BlankBearerAccepted(spaces, None);
    var a := "Bearer " + spaces;
    Deps.BearerPrefixSplit(a);
    assert a[7..] == spaces;
    TrimAllSpace(spaces, IsPySpace);
  }

  const FileColumns := "id,storage_path,mime,size,owner_user_id,project_id,thread_id,title,created_at"

  /** `{k: v for k, v in params.items() if v is not None}`: the entries
    * with a value, in order. */
  function DropNone(entries: seq<(string, Option<string>)>): (r: seq<(string, string)>)
    ensures |r| <= |entries|
  {
    if entries == [] then []
    else if entries[0].1.Some? then [(entries[0].0, entries[0].1.value)] + DropNone(entries[1..])
    else DropNone(entries[1..])
  }

  lemma {:induction false} DropNoneAppend(a: seq<(string, Option<string>)>, b: seq<(string, Option<string>)>)
    ensures DropNone(a + b) == DropNone(a) + DropNone(b)
  {
    if a == [] {
      assert a + b == b;
    } else {
      assert (a + b)[0] == a[0];
      assert (a + b)[1..] == a[1..] + b;
      DropNoneAppend(a[1..], b);
    }
  }

  /** One entry survives exactly when it has a value. */
  function Present(k: string, v: Option<string>): seq<(string, string)>
  {
    if v.Some? then [(k, v.value)] else []
  }

  lemma DropNoneSingle(k: string, v: Option<string>)
    ensures DropNone([(k, v)]) == Present(k, v)
  {
    assert [(k, v)][1..] == [];
  }

  function MimeFilter(mimePrefix: string): Option<string>
  {
    if mimePrefix != "" then Some("like." + mimePrefix + "%") else None
  }

  function EqFilter(id: Option<string>): Option<string>
  {
    if Truthy(id) then Some("eq." + id.value) else None
  }

  /** The query of `list_files`, in the dict's insertion order: the order
    * and the column list, then each filter that has a value. */
  function ListFilesParams(projectId: Option<string>, threadId: Option<string>, mimePrefix: string)
    : (r: seq<(string, string)>)
    ensures r == [("order", "created_at.desc"), ("select", FileColumns)] + Present("mime", MimeFilter(mimePrefix))
      + Present("project_id", EqFilter(projectId)) + Present("thread_id", EqFilter(threadId))
  {
    var fixed := [("order", Some("created_at.desc")), ("select", Some(FileColumns))];
    var entries := fixed + [("mime", MimeFilter(mimePrefix))] + [("project_id", EqFilter(projectId))]
      + [("thread_id", EqFilter(threadId))];
    assert DropNone(fixed) == [("order", "created_at.desc"), ("select", FileColumns)] by {
      assert fixed[1..][1..] == [];
    }
    DropNoneSingle("mime", MimeFilter(mimePrefix));
    DropNoneSingle("project_id", EqFilter(projectId));
    DropNoneSingle("thread_id", EqFilter(threadId));
    DropNoneAppend(fixed, [("mime", MimeFilter(mimePrefix))]);
    DropNoneAppend(fixed + [("mime", MimeFilter(mimePrefix))], [("project_id", EqFilter(projectId))]);
    DropNoneAppend(fixed + [("mime", MimeFilter(mimePrefix))] + [("project_id", EqFilter(projectId))],
                   [("thread_id", EqFilter(threadId))]);
    DropNone(entries)
  }

  /** The query always starts with the order and the column list, holds
    * only the five known keys, and no key twice. */
  lemma ListFilesKeys(projectId: Option<string>, threadId: Option<string>, mimePrefix: string)
    ensures var r := ListFilesParams(projectId, threadId, mimePrefix);
      && |r| >= 2 && r[0] == ("order", "created_at.desc") && r[1] == ("select", FileColumns)
      && (forall i :: 0 <= i < |r| ==> r[i].0 in {"order", "select", "mime", "project_id", "thread_id"})
      && (forall i, j :: 0 <= i < j < |r| ==> r[i].0 != r[j].0)
  {
  }

  /** Looked up by key, the query holds `mime=like.<prefix>%` exactly when
    * the prefix is non-empty, and the project and thread `eq.` filters
    * exactly when those ids are given. */
  lemma ListFilesFilters(projectId: Option<string>, threadId: Option<string>, mimePrefix: string)
    ensures var r := ListFilesParams(projectId, threadId, mimePrefix);
      && DictGet(r, "mime") == (if mimePrefix != "" then Some("like." + mimePrefix + "%") else None)
      && DictGet(r, "project_id") == (if Truthy(projectId) then Some("eq." + projectId.value) else None)
      && DictGet(r, "thread_id") == (if Truthy(threadId) then Some("eq." + threadId.value) else None)
  {
    var fixed := [("order", "created_at.desc"), ("select", FileColumns)];
    var m := Present("mime", MimeFilter(mimePrefix));
    var p := Present("project_id", EqFilter(projectId));
    assert DictGet(fixed, "mime") == None && DictGet(fixed, "project_id") == None && DictGet(fixed, "thread_id") == None;
    DictGetPresent(fixed, "mime", MimeFilter(mimePrefix), "mime");
    DictGetPresent(fixed, "mime", MimeFilter(mimePrefix), "project_id");
    DictGetPresent(fixed, "mime", MimeFilter(mimePrefix), "thread_id");
    DictGetPresent(fixed + m, "project_id", EqFilter(projectId), "mime");
    DictGetPresent(fixed + m, "project_id", EqFilter(projectId), "project_id");
    DictGetPresent(fixed + m, "project_id", EqFilter(projectId), "thread_id");
    DictGetPresent(fixed + m + p, "thread_id", EqFilter(threadId), "mime");
    DictGetPresent(fixed + m + p, "thread_id", EqFilter(threadId), "project_id");
    DictGetPresent(fixed + m + p, "thread_id", EqFilter(threadId), "thread_id");
  }

  /** `rows or []`: an empty upstream answer lists nothing. */
  function ListFiles<T>(rows: Option<seq<T>>): (r: seq<T>)
    ensures rows.None? ==> r == []
    ensures rows.Some? ==> r == rows.value
  {
    rows.GetOr([])
  }
}
