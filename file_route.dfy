/** The frontend's `/api/file` proxy: it rewrites the incoming request into
  * one for the backend's `/api/v1/<path>`, forwards a fixed set of headers
  * and maps the upstream answer (or its absence) to a response. */
module FileRoute {
  import opened Wrappers
  import Text
  import opened SearchParams

  /** The request headers the proxy passes on, by their lower-case names. */
  const Whitelist: seq<string> := ["authorization", "cookie", "prefer", "content-profile", "apikey", "content-type", "accept"]

  /** `forwardHeaders(req)`: each whitelisted header the request carries
    * with a non-empty value, copied with that value; nothing else. */
  method ForwardHeaders(request: map<string, string>) returns (h: map<string, string>)
    ensures forall k :: k in h <==> k in Whitelist && k in request && request[k] != ""
    ensures forall k :: k in h ==> h[k] == request[k]
  {
    h := map[];
    var i := 0;
    while i < |Whitelist|
      invariant 0 <= i <= |Whitelist|
      invariant forall k :: k in h <==> k in Whitelist[..i] && k in request && request[k] != ""
      invariant forall k :: k in h ==> h[k] == request[k]
    {
      var k := Whitelist[i];
      assert Whitelist[..i + 1] == Whitelist[..i] + [k];
      if k in request && request[k] != "" {
        h := h[k := request[k]];
      }
      i := i + 1;
    }
    assert Whitelist[..i] == Whitelist;
  }

  const BaseMissing := "EXTERNAL_URL or BACKEND_INTERNAL_URL is not set"

  /** `.replace(/\/$/, "")`: at most one trailing slash goes. */
  function DropTrailingSlash(s: string): (r: string)
    ensures r == s || (s == r + "/")
  {
    if s != "" && s[|s| - 1] == '/' then s[..|s| - 1] else s
  }

  /** `upstreamBase()`: the first non-empty of the two variables, one
    * trailing slash removed, then "/api/v1"; an error when nothing is left. */
  function UpstreamBase(external: Option<string>, internal: Option<string>): (r: Result<string>)
    ensures r.Failure? ==> r.error == BaseMissing
    ensures r.Success? ==> exists b :: b != "" && r.value == b + "/api/v1"
  {
    var raw := if Truthy(external) then external.value else if Truthy(internal) then internal.value else "";
    var base := DropTrailingSlash(raw);
    if base == "" then Failure(BaseMissing) else Success(base + "/api/v1")
  }

  /** A set variable without a trailing slash reads the same with one. */
  lemma TrailingSlashIgnored(u: string, internal: Option<string>)
    requires u != "" && u[|u| - 1] != '/'
    ensures UpstreamBase(Some(u + "/"), internal) == UpstreamBase(Some(u), internal) == Success(u + "/api/v1")
  {
    assert (u + "/")[..|u|] == u;
  }

  /** The external address, when set, wins even if it is only "/": the
    * internal one is then never consulted and the base is missing. */
  lemma SlashOnlyExternal(internal: Option<string>)
    ensures UpstreamBase(Some("/"), internal) == Failure(BaseMissing)
  {
    assert "/"[..0] == "";
  }

  /** `path.replace(/^\//, "")`: at most one leading slash goes. */
  function DropLeadingSlash(p: string): (r: string)
    ensures r == p || p == "/" + r
  {
    if p != "" && p[0] == '/' then p[1..] else p
  }

  /** The rewritten request: the upstream address and its query pairs. */
  datatype Url = Url(href: string, params: Params)

  /** What `buildUpstreamUrl` produces for an incoming query: "Missing ?path"
    * before anything else, then the base error, else the joined address
    * with every other incoming pair set on it in order. */
  function UpstreamUrl(query: Params, external: Option<string>, internal: Option<string>): (r: Result<Url>)
    ensures r.Failure? <==> Get(query, "path").None? || Get(query, "path").value == "" || UpstreamBase(external, internal).Failure?
    ensures r.Failure? && Truthy(Get(query, "path")) ==> r.error == BaseMissing
    ensures r.Success? ==> r.value.href == UpstreamBase(external, internal).value + "/" + DropLeadingSlash(Get(query, "path").value)
  {
    var path := Get(query, "path");
    if path.None? || path.value == "" then Failure("Missing ?path")
    else
      match UpstreamBase(external, internal)
      case Failure(e) => Failure(e)
      case Success(base) => Success(Url(base + "/" + DropLeadingSlash(path.value), SetAll([], Delete(query, "path"))))
  }

  /** `buildUpstreamUrl(req)`: copies the query, drops `path`, and sets
    * each remaining pair on the new address one by one. */
  method BuildUpstreamUrl(query: Params, external: Option<string>, internal: Option<string>) returns (r: Result<Url>)
    ensures r == UpstreamUrl(query, external, internal)
  {
    var path := Get(query, "path");
    if path.None? || path.value == "" {
      return Failure("Missing ?path");
    }
    var base := UpstreamBase(external, internal);
    if base.Failure? {
      return Failure(base.error);
    }
    var params := SetEach(Delete(query, "path"));
    r := Success(Url(base.value + "/" + DropLeadingSlash(path.value), params));
  }

  /** `qs.forEach((v, k) => url.searchParams.set(k, v))` on a fresh address. */
  method SetEach(qs: Params) returns (params: Params)
    ensures params == SetAll([], qs)
  {
    params := [];
    var i := 0;
    while i < |qs|
      invariant 0 <= i <= |qs|
      invariant params == SetAll([], qs[..i])
    {
      assert qs[..i + 1][..i] == qs[..i] && qs[..i + 1][i] == qs[i];
      params := Set(params, qs[i].0, qs[i].1);
      i := i + 1;
    }
    assert qs[..i] == qs;
  }

  /** Every incoming pair except `path` reaches the backend; a name given
    * several times arrives once, with its last value. */
  lemma ForwardedQuery(query: Params, external: Option<string>, internal: Option<string>, k: string)
    requires UpstreamUrl(query, external, internal).Success?
    ensures Get(UpstreamUrl(query, external, internal).value.params, k) == if k == "path" then None else LastValue(query, k)
  {
    var qs := Delete(query, "path");
    SetAllGet([], qs, k);
    if k == "path" {
      forall i | 0 <= i < |qs|
        ensures qs[i].0 != k
      {
        DeleteKeeps(query, "path", qs[i]);
      }
    } else {
      LastValueDelete(query, "path", k);
    }
  }

  /** The upstream's answer, or a fetch that threw. */
  datatype Upstream = Answered(status: nat, contentType: Option<string>, text: string) | Unreachable

  /** A response of the proxy; `contentType` None is the runtime's default. */
  datatype Reply = Reply(status: nat, contentType: Option<string>, body: string)

  datatype Verb = GET | POST | PATCH | PUT | DELETE

  predicate Ok(status: nat)
  {
    200 <= status <= 299
  }

  /** The Fetch standard's null body statuses: 101, 103, 204, 205, 304. */
  predicate NullBodyStatus(status: nat)
  {
    status == 101 || status == 103 || status == 204 || status == 205 || status == 304
  }

  /** When the Fetch standard's `new Response(body, { status })` throws: a
    * status outside 200..599 is a RangeError, and a non-null body (a
    * string, even "") with a null body status is a TypeError. */
  predicate ResponseThrows(status: nat, hasBody: bool)
  {
    status < 200 || status > 599 || (hasBody && NullBodyStatus(status))
  }

  /** The runtime's answer when a route handler throws. */
  const HandlerFailed := Reply(500, None, "")

  /** The response for a request that cannot be rewritten. */
  function BadRequest(message: string): (r: Reply)
    ensures r.status == 400 && r.body != ""
  {
    Reply(400, None, if message != "" then message else "bad request")
  }

  /** `GET`: 400 when the address cannot be built, 502 when the fetch
    * throws, else the upstream status and body with its content type
    * (JSON when it names none). The upstream body is relayed as a stream,
    * which is null for a null body status, so only a status outside
    * 200..599 makes the handler throw. */
  function GetReply(built: Result<Url>, up: Upstream): (r: Reply)
    ensures built.Failure? ==> r.status == 400
    ensures built.Success? && up.Unreachable? ==> r == Reply(502, None, "gateway fetch error")
    ensures built.Success? && up.Answered? && ResponseThrows(up.status, false) ==> r == HandlerFailed
    ensures built.Success? && up.Answered? && !ResponseThrows(up.status, false) ==>
      r.status == up.status && r.body == up.text && r.contentType == Some(up.contentType.GetOr("application/json"))
  {
    if built.Failure? then BadRequest(built.error)
    else if up.Unreachable? then Reply(502, None, "gateway fetch error")
    else if ResponseThrows(up.status, false) then HandlerFailed
    else Reply(up.status, Some(up.contentType.GetOr("application/json")), up.text)
  }

  /** `writeThrough`: as `GET` for the error cases; an answer keeps its
    * status, its content type only when non-empty, and a failed answer
    * with an empty body reads "upstream error". The body is always the
    * upstream text, a string, so a null body status (the backend's 204
    * for a deleted file among them) makes the constructor throw and the
    * request fails with 500. */
  function WriteReply(built: Result<Url>, up: Upstream): (r: Reply)
    ensures built.Failure? ==> r.status == 400
    ensures built.Success? && up.Unreachable? ==> r == Reply(502, None, "gateway fetch error")
    ensures built.Success? && up.Answered? && ResponseThrows(up.status, true) ==> r == HandlerFailed
    ensures built.Success? && up.Answered? && !ResponseThrows(up.status, true) ==>
      && r.status == up.status
      && r.contentType == (if Truthy(up.contentType) then up.contentType else None)
      && (Ok(up.status) || up.text != "" ==> r.body == up.text)
      && (!Ok(up.status) ==> r.body != "")
  {
    if built.Failure? then BadRequest(built.error)
    else if up.Unreachable? then Reply(502, None, "gateway fetch error")
    else if ResponseThrows(up.status, true) then HandlerFailed
    else
      var ct := if Truthy(up.contentType) then up.contentType else None;
      if !Ok(up.status) then Reply(up.status, ct, if up.text != "" then up.text else "upstream error")
      else Reply(up.status, ct, up.text)
  }

  /** As written, a delete the backend confirms with 204 and no content
    * reaches the browser as a 500. */
  lemma DeletedFileFails(url: Url, ct: Option<string>)
    ensures WriteReply(Success(url), Answered(204, ct, "")) == HandlerFailed
    ensures HandlerFailed.status == 500
  {
  }

  /** `writeThrough` as evidently intended: a null body status is relayed
    * with no body, everything else as `WriteReply` does. */
  function RelayReply(built: Result<Url>, up: Upstream): (r: Reply)
    ensures built.Success? && up.Answered? && 200 <= up.status <= 599 ==> r.status == up.status
    ensures built.Success? && up.Answered? && NullBodyStatus(up.status) ==> r.body == ""
    ensures !(built.Success? && up.Answered? && NullBodyStatus(up.status)) ==> r == WriteReply(built, up)
  {
    if built.Success? && up.Answered? && 200 <= up.status <= 599 && NullBodyStatus(up.status) then
      Reply(up.status, if Truthy(up.contentType) then up.contentType else None, "")
    else WriteReply(built, up)
  }

  /** With the corrected reply every answered status in range reaches the
    * browser, a confirmed delete among them, and only out-of-range ones
    * still fail. */
  lemma RelayKeepsStatus(built: Result<Url>, up: Upstream)
    requires built.Success? && up.Answered?
    ensures RelayReply(built, up) == HandlerFailed <==> up.status < 200 || up.status > 599
    ensures RelayReply(built, Answered(204, up.contentType, "")).status == 204
  {
  }

  /** The request the proxy sends upstream. */
  datatype Sent = Sent(verb: Verb, url: Url, headers: map<string, string>, body: Option<string>)

  /** The proxy for one request: the address is built first and nothing is
    * sent when that fails; DELETE goes without a body, the other writes
    * relay the request text as it is. */
  method Proxy(verb: Verb, query: Params, external: Option<string>, internal: Option<string>,
               request: map<string, string>, text: string, up: Upstream) returns (reply: Reply, sent: Option<Sent>)
    ensures sent.None? <==> UpstreamUrl(query, external, internal).Failure?
    ensures sent.Some? ==> sent.value.verb == verb && sent.value.url == UpstreamUrl(query, external, internal).value
    ensures sent.Some? ==> (sent.value.body.None? <==> verb == GET || verb == DELETE)
    ensures sent.Some? && sent.value.body.Some? ==> sent.value.body.value == text
    ensures sent.Some? ==> forall k :: k in sent.value.headers <==> k in Whitelist && k in request && request[k] != ""
    ensures sent.Some? ==> forall k :: k in sent.value.headers ==> sent.value.headers[k] == request[k]
    ensures reply == if verb == GET then GetReply(UpstreamUrl(query, external, internal), up)
                     else WriteReply(UpstreamUrl(query, external, internal), up)
  {
    var built := BuildUpstreamUrl(query, external, internal);
    if built.Failure? {
      reply := BadRequest(built.error);
      sent := None;
      return;
    }
    var headers := ForwardHeaders(request);
    var body := if verb == GET || verb == DELETE then None else Some(text);
    sent := Some(Sent(verb, built.value, headers, body));
    reply := if verb == GET then GetReply(built, up) else WriteReply(built, up);
  }
}
