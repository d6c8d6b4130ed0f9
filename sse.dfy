/** Event-stream framing of the chat API (`sse`, `sse_debug`,
  * `sse_error_payload`), following section 9.2 (Server-sent events) of
  * the WHATWG HTML Living Standard: an optional `event:` line, `data:`
  * lines, a blank line. The payload is the JSON text Python's
  * `json.dumps(..., ensure_ascii=False)` writes. */
module Sse {
  import opened Wrappers
  import opened Text
  import opened Utf8

  /** A Python value as `json.dumps` sees it; numbers are integers, and
    * an object keeps its keys in insertion order, as a `dict` does. */
  datatype Json = JNull | JBool(b: bool) | JInt(i: int) | JStr(s: string)
                | JArr(items: seq<Json>) | JObj(fields: seq<Field>)
  datatype Field = Field(key: string, value: Json)

  /** No character below U+0020. */
  predicate NoControl(s: string)
  {
    forall i :: 0 <= i < |s| ==> s[i] >= ' '
  }

  lemma {:induction false} JoinNoControl(parts: seq<string>, sep: string)
    requires forall i :: 0 <= i < |parts| ==> NoControl(parts[i])
    requires NoControl(sep)
    ensures NoControl(Join(parts, sep))
  {
    if |parts| > 1 {
      JoinNoControl(parts[1..], sep);
    }
  }

  function HexDigit(d: nat): char
    requires d < 16
  {
    "0123456789abcdef"[d]
  }

  function HexValue(c: char): nat
  {
    if '0' <= c <= '9' then c as int - '0' as int
    else if 'a' <= c <= 'f' then c as int - 'a' as int + 10
    else 0
  }

  /** One character inside a JSON string: quote, backslash and the control
    * characters are escaped, everything else (all of non-ASCII included)
    * is written as it is. */
  function EscapeChar(c: char): (r: string)
    ensures NoControl(r)
    ensures c >= ' ' && c != '"' && c != '\\' ==> r == [c]
  {
    if c == '"' then "\\\""
    else if c == '\\' then "\\\\"
    else if c == '\n' then "\\n"
    else if c == '\r' then "\\r"
    else if c == '\t' then "\\t"
    else if c == '\U{0008}' then "\\b"
    else if c == '\U{000C}' then "\\f"
    else if c < ' ' then "\\u00" + [HexDigit(c as int / 16), HexDigit(c as int % 16)]
    else [c]
  }

  function Escape(s: string): (r: string)
    ensures NoControl(r)
  {
    if s == [] then [] else EscapeChar(s[0]) + Escape(s[1..])
  }

  /** The JSON reading of an escaped string body. */
  function Unescape(e: string): string
    decreases |e|
  {
    if e == [] then []
    else if e[0] != '\\' || |e| == 1 then [e[0]] + Unescape(e[1..])
    else
      var c := e[1];
      if c == 'u' && |e| >= 6 then
        var v := HexValue(e[2]) * 4096 + HexValue(e[3]) * 256 + HexValue(e[4]) * 16 + HexValue(e[5]);
        (if v < 0xD800 then [v as char] else []) + Unescape(e[6..])
      else
        var d := if c == 'n' then '\n' else if c == 'r' then '\r' else if c == 't' then '\t'
                 else if c == 'b' then '\U{0008}' else if c == 'f' then '\U{000C}' else c;
        [d] + Unescape(e[2..])
  }

  /** A control character without a short escape is written as `\u00XY`. */
  lemma UnescapeHex(c: char, rest: string)
    requires c < ' ' && c != '\n' && c != '\r' && c != '\t' && c != '\U{0008}' && c != '\U{000C}'
    ensures Unescape(EscapeChar(c) + rest) == [c] + Unescape(rest)
  {
    var hi, lo := c as int / 16, c as int % 16;
    var e := "\\u00" + [HexDigit(hi), HexDigit(lo)] + rest;
    assert EscapeChar(c) + rest == e;
    assert e[0] == '\\' && e[1] == 'u' && e[2] == '0' && e[3] == '0' && e[4] == HexDigit(hi) && e[5] == HexDigit(lo);
    assert HexValue(HexDigit(hi)) == hi && HexValue(HexDigit(lo)) == lo;
    assert e[6..] == rest;
  }

  /** The other escapes take two characters. */
  lemma UnescapeShort(c: char, rest: string)
    requires c == '"' || c == '\\' || c == '\n' || c == '\r' || c == '\t' || c == '\U{0008}' || c == '\U{000C}'
    ensures Unescape(EscapeChar(c) + rest) == [c] + Unescape(rest)
  {
    var e := EscapeChar(c) + rest;
    assert |EscapeChar(c)| == 2 && e[0] == '\\';
    assert e[2..] == rest;
  }

  lemma UnescapeChar(c: char, rest: string)
    ensures Unescape(EscapeChar(c) + rest) == [c] + Unescape(rest)
  {
    if c == '"' || c == '\\' || c == '\n' || c == '\r' || c == '\t' || c == '\U{0008}' || c == '\U{000C}' {
      UnescapeShort(c, rest);
    } else if c < ' ' {
      UnescapeHex(c, rest);
    } else {
      var e := [c] + rest;
      assert EscapeChar(c) + rest == e && e[1..] == rest;
    }
  }

  /** Escaping loses nothing: reading the escaped body gives the string back. */
  lemma {:induction false} EscapeRoundTrip(s: string)
    ensures Unescape(Escape(s)) == s
  {
    if s != [] {
      UnescapeChar(s[0], Escape(s[1..]));
      EscapeRoundTrip(s[1..]);
    }
  }

  function Quote(s: string): (r: string)
    ensures NoControl(r)
  {
    "\"" + Escape(s) + "\""
  }

  /** `json.dumps(value, ensure_ascii=False)`: no indentation, items
    * separated by ", " and keys by ": ". Every control character is
    * escaped, so the text has no line feed and no carriage return. */
  function Dumps(j: Json): (r: string)
    ensures NoControl(r)
    ensures |r| >= 1
  {
    match j
    case JNull => "null"
    case JBool(b) => if b then "true" else "false"
    case JInt(i) => IntToString(i)
    case JStr(s) => Quote(s)
    case JArr(items) =>
      var parts := seq(|items|, k requires 0 <= k < |items| => Dumps(items[k]));
      JoinNoControl(parts, ", ");
      "[" + Join(parts, ", ") + "]"
    case JObj(fields) =>
      var parts := seq(|fields|, k requires 0 <= k < |fields| => Quote(fields[k].key) + ": " + Dumps(fields[k].value));
      JoinNoControl(parts, ", ");
      "{" + Join(parts, ", ") + "}"
  }

  /** The characters at which Python's `str.splitlines` breaks a line. */
  predicate PyLineBreak(c: char)
  {
    c == '\n' || c == '\r' || c == '\U{000B}' || c == '\U{000C}' || c == '\U{001C}' || c == '\U{001D}'
    || c == '\U{001E}' || c == '\U{0085}' || c == '\U{2028}' || c == '\U{2029}'
  }

  function FirstBreak(s: string): (k: nat)
    ensures k <= |s|
    ensures forall i :: 0 <= i < k ==> !PyLineBreak(s[i])
    ensures k < |s| ==> PyLineBreak(s[k])
  {
    if s == [] || PyLineBreak(s[0]) then 0 else 1 + FirstBreak(s[1..])
  }

  /** `s.splitlines()`: "\r\n" counts as one break, and a break at the end
    * does not start an empty last line. */
  function SplitLines(s: string): (r: seq<string>)
    ensures forall i, k :: 0 <= i < |r| && 0 <= k < |r[i]| ==> !PyLineBreak(r[i][k])
    decreases |s|
  {
    if s == [] then []
    else
      var k := FirstBreak(s);
      if k == |s| then [s]
      else
        var next := if s[k] == '\r' && k + 1 < |s| && s[k + 1] == '\n' then k + 2 else k + 1;
        [s[..k]] + SplitLines(s[next..])
  }

  /** The `event:` line, present only for a truthy event name. */
  function EventLine(event: Option<string>): string
  {
    if Truthy(event) then "event: " + event.value + "\n" else ""
  }

  function DataLines(lines: seq<string>): (r: seq<string>)
    ensures |r| == |lines|
    ensures forall i :: 0 <= i < |lines| ==> r[i] == "data: " + lines[i]
  {
    seq(|lines|, i requires 0 <= i < |lines| => "data: " + lines[i])
  }

  /** The frame's lines joined by "\n", then the blank line. */
  function FrameText(event: Option<string>, lines: seq<string>): string
  {
    var header := if Truthy(event) then ["event: " + event.value] else [];
    Join(header + DataLines(lines), "\n") + "\n\n"
  }

  /** A frame with one data line. */
  lemma FrameOneLine(event: Option<string>, line: string)
    ensures FrameText(event, [line]) == EventLine(event) + "data: " + line + "\n\n"
  {
    var d := DataLines([line]);
    assert d == ["data: " + line];
    if Truthy(event) {
      var all := ["event: " + event.value] + d;
      assert all[1..] == d;
      assert Join(all, "\n") == "event: " + event.value + "\n" + ("data: " + line);
    } else {
      assert [] + d == d;
    }
  }

  /** `sse(data, event)` as written: a string payload gives `None` (the
    * `return` sits inside the non-string branch); any other payload is
    * framed with one `data:` line per line of the JSON text, as
    * `str.splitlines` cuts it. */
  function SseAsWritten(data: Json, event: Option<string>): (r: Option<seq<byte>>)
    ensures r.None? <==> data.JStr?
  {
    if data.JStr? then None else Some(Encode(FrameText(event, SplitLines(Dumps(data)))))
  }

  /** `sse(data, event)` with the JSON text cut only at line feeds: a string
    * payload still gives `None`; any other payload is one frame whose
    * single `data:` line carries the whole JSON text. */
  function Sse(data: Json, event: Option<string>): (r: Option<seq<byte>>)
    ensures r.None? <==> data.JStr?
    ensures !data.JStr? ==> r == Some(Encode(EventLine(event) + "data: " + Dumps(data) + "\n\n"))
  {
    if data.JStr? then None
    else
      var text := Dumps(data);
      assert forall i :: 0 <= i < |text| ==> text[i] != '\n';
      FrameOneLine(event, text);
      Some(Encode(FrameText(event, Split(text, '\n'))))
  }

  /** The payload can be read back from the frame: after the optional
    * event line and the "data: " prefix comes the JSON text, then the
    * blank line, and nothing else. */
  lemma SseRecoversJson(data: Json, event: Option<string>)
    requires !data.JStr?
    ensures var text := EventLine(event) + "data: " + Dumps(data) + "\n\n";
      && Sse(data, event) == Some(Encode(text))
      && text[|EventLine(event)| + 6..|text| - 2] == Dumps(data)
  {
  }

  /** For a payload whose JSON text has none of Python's extra line breaks
    * (U+0085, U+2028, U+2029 are the ones JSON leaves unescaped), the
    * framing as written is the one-line framing. */
  lemma AsWrittenAgrees(data: Json, event: Option<string>)
    requires forall i :: 0 <= i < |Dumps(data)| ==> !PyLineBreak(Dumps(data)[i])
    ensures SseAsWritten(data, event) == Sse(data, event)
  {
    if !data.JStr? {
      var text := Dumps(data);
      assert SplitLines(text) == [text];
      FrameOneLine(event, text);
    }
  }

  /** No character at which `str.splitlines` breaks. */
  predicate NoBreaks(s: string)
  {
    forall i :: 0 <= i < |s| ==> !PyLineBreak(s[i])
  }

  lemma SplitLinesOne(s: string)
    requires s != [] && NoBreaks(s)
    ensures SplitLines(s) == [s]
  {
  }

  /** A line separator between two lines without breaks splits them. */
  lemma SplitAtLineSeparator(p: string, q: string)
    requires NoBreaks(p) && NoBreaks(q) && q != []
    ensures SplitLines(p + "\U{2028}" + q) == [p, q]
  {
    var s := p + "\U{2028}" + q;
    FirstBreakAt(s, |p|);
    assert s[..|p|] == p;
    assert s[|p| + 1..] == q;
    SplitLinesOne(q);
  }

  /** The text of a frame with two data lines and no event line. */
  lemma FrameTwoLines(p: string, q: string)
    ensures FrameText(None, [p, q]) == "data: " + p + "\ndata: " + q + "\n\n"
  {
    var d := DataLines([p, q]);
    assert d == ["data: " + p, "data: " + q];
    assert [] + d == d && d[1..] == ["data: " + q];
    assert Join(d, "\n") == "data: " + p + "\n" + ("data: " + q);
  }

  /** As written, a payload whose JSON text holds U+2028 is framed as two
    * `data:` lines, cut at that character. */
  lemma LineSeparatorSplitsFrame(data: Json, p: string, q: string)
    requires !data.JStr? && Dumps(data) == p + "\U{2028}" + q
    requires NoBreaks(p) && NoBreaks(q) && q != []
    ensures SseAsWritten(data, None) == Some(Encode("data: " + p + "\ndata: " + q + "\n\n"))
  {
    SplitAtLineSeparator(p, q);
    FrameTwoLines(p, q);
  }

  /** ... so a reader, which joins the data lines with a line feed, gets a
    * raw control character inside the JSON string instead of the JSON
    * text, which the one-line framing carries unchanged. */
  lemma LineSeparatorChangesFrame(data: Json, p: string, q: string)
    requires !data.JStr? && Dumps(data) == p + "\U{2028}" + q
    requires NoBreaks(p) && NoBreaks(q) && q != []
    ensures SseAsWritten(data, None) != Sse(data, None)
  {
    LineSeparatorSplitsFrame(data, p, q);
    OneLineFrame(data, p + "\U{2028}" + q);
    TwoLinesDiffer(p, q);
    EncodeDistinct("data: " + p + "\ndata: " + q + "\n\n", "data: " + (p + "\U{2028}" + q) + "\n\n");
  }

  /** Without an event name, the frame is "data: ", the JSON text and the
    * blank line. */
  lemma OneLineFrame(data: Json, text: string)
    requires !data.JStr? && Dumps(data) == text
    ensures Sse(data, None) == Some(Encode("data: " + text + "\n\n"))
  {
    assert EventLine(None) + "data: " + text + "\n\n" == "data: " + text + "\n\n";
  }

  lemma EncodeDistinct(a: string, b: string)
    requires a != b
    ensures Encode(a) != Encode(b)
  {
    if Encode(a) == Encode(b) {
      EncodeInjective(a, b);
    }
  }

  /** The two-line text differs from the one-line text where the line
    * separator stood. */
  lemma TwoLinesDiffer(p: string, q: string)
    ensures "data: " + p + "\ndata: " + q + "\n\n" != "data: " + (p + "\U{2028}" + q) + "\n\n"
  {
    var two := "data: " + p + "\ndata: " + q + "\n\n";
    var one := "data: " + (p + "\U{2028}" + q) + "\n\n";
    assert two[6 + |p|] == '\n';
    assert one[6 + |p|] == '\U{2028}';
  }

  lemma FirstBreakAt(s: string, k: nat)
    requires k < |s| && PyLineBreak(s[k])
    requires forall i :: 0 <= i < k ==> !PyLineBreak(s[i])
    ensures FirstBreak(s) == k
  {
  }

  /** A Python dictionary's entries in insertion order. */
  function Get(fields: seq<Field>, key: string): (r: Option<Json>)
    ensures r.None? <==> forall i :: 0 <= i < |fields| ==> fields[i].key != key
  {
    if fields == [] then None
    else if fields[0].key == key then Some(fields[0].value)
    else Get(fields[1..], key)
  }

  predicate UniqueKeys(fields: seq<Field>)
  {
    forall i, j :: 0 <= i < j < |fields| ==> fields[i].key != fields[j].key
  }

  /** `d[key] = value`: an existing key keeps its place, a new one goes last. */
  function Put(fields: seq<Field>, f: Field): (r: seq<Field>)
    ensures Get(r, f.key) == Some(f.value)
    ensures forall k :: k != f.key ==> Get(r, k) == Get(fields, k)
    ensures |r| == |fields| + (if Get(fields, f.key).None? then 1 else 0)
    ensures forall i :: 0 <= i < |fields| ==> r[i].key == fields[i].key
    ensures |r| > |fields| ==> r[|fields|] == f
  {
    if fields == [] then [f]
    else if fields[0].key == f.key then [f] + fields[1..]
    else [fields[0]] + Put(fields[1..], f)
  }

  /** Putting keeps the keys distinct: an existing key is overwritten in
    * place, and a new one is different from all the others. */
  lemma PutUnique(fields: seq<Field>, f: Field)
    ensures UniqueKeys(fields) ==> UniqueKeys(Put(fields, f))
  {
    var r := Put(fields, f);
    if UniqueKeys(fields) {
      forall i, j | 0 <= i < j < |r| ensures r[i].key != r[j].key {
        if j == |fields| {
          assert Get(fields, f.key).None?;
        }
      }
    }
  }

  /** `d.update(kwargs)`, one entry at a time. */
  function Update(fields: seq<Field>, kwargs: seq<Field>): (r: seq<Field>)
    ensures UniqueKeys(fields) ==> UniqueKeys(r)
    ensures forall k :: Get(kwargs, k).None? ==> Get(r, k) == Get(fields, k)
    decreases |kwargs|
  {
    if kwargs == [] then fields
    else
      PutUnique(fields, kwargs[0]);
      Update(Put(fields, kwargs[0]), kwargs[1..])
  }

  /** Every keyword argument is in the updated dictionary with its value
    * (keyword arguments have distinct names). */
  lemma {:induction false} UpdateSetsKwargs(fields: seq<Field>, kwargs: seq<Field>, i: nat)
    requires UniqueKeys(kwargs) && i < |kwargs|
    ensures Get(Update(fields, kwargs), kwargs[i].key) == Some(kwargs[i].value)
    decreases |kwargs|
  {
    if i == 0 {
      var p := Put(fields, kwargs[0]);
      assert Get(kwargs[1..], kwargs[0].key).None? by {
        forall j | 0 <= j < |kwargs[1..]| ensures kwargs[1..][j].key != kwargs[0].key {
          assert kwargs[1..][j] == kwargs[j + 1];
        }
      }
    } else {
      UpdateSetsKwargs(Put(fields, kwargs[0]), kwargs[1..], i - 1);
    }
  }

  /** The payload of `sse_debug(stage, **kwargs)`. */
  function DebugPayload(stage: string, kwargs: seq<Field>): (r: Json)
    ensures r.JObj? && UniqueKeys(r.fields)
    ensures Get(kwargs, "type").None? ==> Get(r.fields, "type") == Some(JStr("debug"))
    ensures Get(kwargs, "stage").None? ==> Get(r.fields, "stage") == Some(JStr(stage))
  {
    var base := [Field("type", JStr("debug")), Field("stage", JStr(stage))];
    assert UniqueKeys(base) && base[1..] == [Field("stage", JStr(stage))];
    assert Get(base, "type") == Some(JStr("debug"));
    assert Get(base, "stage") == Some(JStr(stage));
    JObj(Update(base, kwargs))
  }

  /** `sse_debug(stage, **kwargs)`: a frame with no event line whose payload
    * carries type "debug", the stage and every keyword field. The name
    * `stage` cannot be passed twice, so it is never a keyword. */
  lemma DebugFrame(stage: string, kwargs: seq<Field>, i: nat)
    requires UniqueKeys(kwargs) && i < |kwargs| && Get(kwargs, "stage").None?
    ensures var p := DebugPayload(stage, kwargs);
      && Get(p.fields, kwargs[i].key) == Some(kwargs[i].value)
      && Get(p.fields, "stage") == Some(JStr(stage))
  {
    UpdateSetsKwargs([Field("type", JStr("debug")), Field("stage", JStr(stage))], kwargs, i);
  }

  /** What an exception gives `sse_error_payload`: an `HTTPException`
    * with its status and detail, or any other exception by its `str`. */
  datatype Exc = HttpExc(status: int, detail: Json) | OtherExc(text: string)

  /** The keys every error payload carries, and no others yet. */
  predicate ErrorBaseFields(fs: seq<Field>, where: string, message: Json)
  {
    && UniqueKeys(fs)
    && Get(fs, "type") == Some(JStr("error")) && Get(fs, "where") == Some(JStr(where))
    && Get(fs, "message") == Some(message)
  }

  lemma ErrorBase(where: string, message: Json)
    ensures var base := [Field("type", JStr("error")), Field("where", JStr(where)), Field("message", message)];
      && ErrorBaseFields(base, where, message)
      && Get(base, "status") == None && Get(base, "trace") == None
  {
    var base := [Field("type", JStr("error")), Field("where", JStr(where)), Field("message", message)];
    var tail := [Field("where", JStr(where)), Field("message", message)];
    var last := [Field("message", message)];
    assert base[1..] == tail && tail[1..] == last;
    assert Get(last, "status") == None && Get(last, "trace") == None;
    assert Get(tail, "status") == None && Get(tail, "trace") == None;
    assert Get(tail, "message") == Some(message);
  }

  /** Putting a key other than the base ones keeps the base ones. */
  lemma PutExtra(fs: seq<Field>, where: string, message: Json, f: Field)
    requires ErrorBaseFields(fs, where, message)
    requires f.key != "type" && f.key != "where" && f.key != "message"
    ensures ErrorBaseFields(Put(fs, f), where, message)
  {
    PutUnique(fs, f);
  }

  /** The base payload, with `status` added for an `HTTPException`. */
  function WithStatus(exc: Exc, where: string): (r: seq<Field>)
    ensures ErrorBaseFields(r, where, if exc.HttpExc? then exc.detail else JStr(exc.text))
    ensures Get(r, "status") == (if exc.HttpExc? then Some(JInt(exc.status)) else None)
    ensures Get(r, "trace") == None
  {
    var message := if exc.HttpExc? then exc.detail else JStr(exc.text);
    var base := [Field("type", JStr("error")), Field("where", JStr(where)), Field("message", message)];
    ErrorBase(where, message);
    if exc.HttpExc? then
      var f := Field("status", JInt(exc.status));
      PutExtra(base, where, message, f);
      assert "trace" != "status";
      Put(base, f)
    else base
  }

  /** The traceback, added under `trace` when the switch is on. */
  function WithTrace(fs: seq<Field>, debugTrace: bool, trace: string): (r: seq<Field>)
    ensures UniqueKeys(fs) ==> UniqueKeys(r)
    ensures Get(r, "trace") == (if debugTrace then Some(JStr(trace)) else Get(fs, "trace"))
    ensures forall k :: k != "trace" ==> Get(r, k) == Get(fs, k)
  {
    if debugTrace then
      PutUnique(fs, Field("trace", JStr(trace)));
      Put(fs, Field("trace", JStr(trace)))
    else fs
  }

  /** `sse_error_payload(exc, where)`: the base payload, then `status` for
    * an `HTTPException`, then `trace` when the switch is on. The switch
    * and the formatted traceback are inputs. */
  function ErrorPayload(exc: Exc, where: string, debugTrace: bool, trace: string): (r: Json)
    ensures r.JObj?
  {
    JObj(WithTrace(WithStatus(exc, where), debugTrace, trace))
  }

  /** The error payload has distinct keys: type "error", where the error
    * happened, and the message (an `HTTPException`'s detail, otherwise
    * the exception's text). */
  lemma ErrorPayloadBase(exc: Exc, where: string, debugTrace: bool, trace: string)
    ensures var r := ErrorPayload(exc, where, debugTrace, trace);
      && UniqueKeys(r.fields)
      && Get(r.fields, "type") == Some(JStr("error"))
      && Get(r.fields, "where") == Some(JStr(where))
      && Get(r.fields, "message") == Some(if exc.HttpExc? then exc.detail else JStr(exc.text))
  {
    var fs := WithStatus(exc, where);
    assert "type" != "trace" && "where" != "trace" && "message" != "trace";
  }

  /** It carries `status` exactly for an `HTTPException` ... */
  lemma ErrorPayloadStatus(exc: Exc, where: string, debugTrace: bool, trace: string)
    ensures Get(ErrorPayload(exc, where, debugTrace, trace).fields, "status")
      == (if exc.HttpExc? then Some(JInt(exc.status)) else None)
  {
    var fs := WithStatus(exc, where);
    assert "status" != "trace";
    assert Get(WithTrace(fs, debugTrace, trace), "status") == Get(fs, "status");
  }

  /** ... and `trace` exactly when the switch is on. */
  lemma ErrorPayloadTrace(exc: Exc, where: string, debugTrace: bool, trace: string)
    ensures Get(ErrorPayload(exc, where, debugTrace, trace).fields, "trace")
      == (if debugTrace then Some(JStr(trace)) else None)
  {
    var fs := WithStatus(exc, where);
    assert Get(fs, "trace") == None;
  }
}
