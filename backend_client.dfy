/** The frontend's fetch helpers: the query string built for a request and
  * the way a response is turned into a value or an error. */
module BackendClient {
  import opened Wrappers
  import Text
  import opened SearchParams

  /** A query value as the callers pass it. */
  datatype JsValue = JsString(s: string) | JsNumber(n: int) | JsBool(b: bool) | JsNull | JsUndefined

  predicate Defined(v: JsValue)
  {
    !v.JsNull? && !v.JsUndefined?
  }

  /** `String(v)` for a defined value. */
  function Stringify(v: JsValue): (r: string)
    requires Defined(v)
  {
    match v
    case JsString(s) => s
    case JsNumber(n) => Text.IntToString(n)
    case JsBool(b) => if b then "true" else "false"
  }

  /** The pairs `toURL` sets: each defined entry, as text, in entry order. */
  function DefinedPairs(query: seq<(string, JsValue)>): (r: Params)
    ensures |r| <= |query|
  {
    if query == [] then []
    else
      var last := query[|query| - 1];
      var init := DefinedPairs(query[..|query| - 1]);
      if Defined(last.1) then init + [(last.0, Stringify(last.1))] else init
  }

  /** A pair is set exactly when some entry with that name holds a defined
    * value with that text: null and undefined entries leave no trace. */
  lemma {:induction false} DefinedPairsHas(query: seq<(string, JsValue)>, k: string, s: string)
    ensures (k, s) in DefinedPairs(query) <==>
      exists i :: 0 <= i < |query| && query[i].0 == k && Defined(query[i].1) && Stringify(query[i].1) == s
  {
    if query != [] {
      var init := query[..|query| - 1];
      DefinedPairsHas(init, k, s);
      if exists i :: 0 <= i < |query| && query[i].0 == k && Defined(query[i].1) && Stringify(query[i].1) == s {
        var i :| 0 <= i < |query| && query[i].0 == k && Defined(query[i].1) && Stringify(query[i].1) == s;
        if i < |init| {
          assert init[i] == query[i];
        }
      }
      if exists i :: 0 <= i < |init| && init[i].0 == k && Defined(init[i].1) && Stringify(init[i].1) == s {
        var i :| 0 <= i < |init| && init[i].0 == k && Defined(init[i].1) && Stringify(init[i].1) == s;
        assert query[i] == init[i];
      }
    }
  }

  /** A URL as `toURL` returns it: the resolved path and its query pairs. */
  datatype Url = Url(path: string, params: Params)

  /** `toURL(path, query)`: starting from the query already in `path`
    * (`own`), every entry whose value is neither null nor undefined is
    * `set` under its name, in entry order. */
  method ToURL(path: string, own: Params, query: Option<seq<(string, JsValue)>>) returns (url: Url)
    ensures url.path == path
    ensures url.params == if query.Some? then SetAll(own, DefinedPairs(query.value)) else own
  {
    var params := own;
    if query.Some? {
      var entries := query.value;
      var i := 0;
      while i < |entries|
        invariant 0 <= i <= |entries|
        invariant params == SetAll(own, DefinedPairs(entries[..i]))
      {
        var (k, v) := entries[i];
        assert entries[..i + 1][..i] == entries[..i] && entries[..i + 1][i] == (k, v);
        if v != JsNull && v != JsUndefined {
          SetAllSnoc(own, DefinedPairs(entries[..i]), k, Stringify(v));
          params := Set(params, k, Stringify(v));
        }
        i := i + 1;
      }
      assert entries[..i] == entries;
    }
    url := Url(path, params);
  }

  /** What a name reads as in the URL `toURL` built: the text of its last
    * defined entry, or what the path's own query said when it has none. */
  lemma ToURLGet(own: Params, query: seq<(string, JsValue)>, k: string)
    ensures Get(SetAll(own, DefinedPairs(query)), k) ==
      if LastValue(DefinedPairs(query), k).Some? then LastValue(DefinedPairs(query), k) else Get(own, k)
  {
    SetAllGet(own, DefinedPairs(query), k);
  }

  /** The outcome of `handle(res)`. */
  datatype Handled = Thrown(message: string) | Undefined | Parsed(json: string) | Raw(text: string)

  /** `handle(res)`: a failed response throws its body text, or
    * "HTTP <status>" when the body is empty; an empty ok body is undefined;
    * otherwise the body is parsed when the content type mentions JSON and
    * returned as text when not. */
  function Handle(ok: bool, status: nat, contentType: Option<string>, raw: string): (r: Handled)
    ensures r.Thrown? <==> !ok
    ensures r.Thrown? ==> r.message != "" && (raw != "" ==> r.message == raw)
    ensures !ok && raw == "" ==> r == Thrown("HTTP " + Text.NatToString(status))
    ensures r.Undefined? <==> ok && raw == ""
    ensures r.Parsed? <==> ok && raw != "" && Text.Contains(contentType.GetOr(""), "application/json")
    ensures r.Parsed? ==> r.json == raw
    ensures r.Raw? ==> r.text == raw
  {
    var ctype := contentType.GetOr("");
    if !ok then Thrown(if raw != "" then raw else "HTTP " + Text.NatToString(status))
    else if raw == "" then Undefined
    else if Text.Contains(ctype, "application/json") then Parsed(raw)
    else Raw(raw)
  }

  /** An empty failed body is reported by its status, so two statuses never
    * share a message. */
  lemma EmptyFailureNamesStatus(s1: nat, s2: nat, c1: Option<string>, c2: Option<string>)
    requires Handle(false, s1, c1, "") == Handle(false, s2, c2, "")
    ensures s1 == s2
  {
    var m1 := "HTTP " + Text.NatToString(s1);
    var m2 := "HTTP " + Text.NatToString(s2);
    assert m1[5..] == Text.NatToString(s1) && m2[5..] == Text.NatToString(s2);
    Text.NatToStringInjective(s1, s2);
  }
}
