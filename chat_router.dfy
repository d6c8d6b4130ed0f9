/** The chat endpoint (`POST /chatbot`): the generator's items pass through
  * `_safe_stream` into an event-stream response. */
module ChatRouter {
  import opened Wrappers
  import opened Utf8

  /** What the generator may yield: `None`, a `str` or `bytes`. */
  datatype Item = NoneItem | TextItem(text: string) | BytesItem(bytes: seq<byte>)

  /** `_safe_stream(gen)`: `None` is dropped, a string is UTF-8 encoded,
    * bytes pass through. */
  function SafeStream(items: seq<Item>): (r: seq<seq<byte>>)
    ensures |r| <= |items|
    ensures (forall i :: 0 <= i < |items| ==> items[i].NoneItem?) ==> r == []
    ensures (forall i :: 0 <= i < |items| ==> !items[i].NoneItem?) ==> |r| == |items|
  {
    if items == [] then []
    else
      var head := match items[0]
        case NoneItem => []
        case TextItem(t) => [Encode(t)]
        case BytesItem(b) => [b];
      head + SafeStream(items[1..])
  }

  /** The stream is a filter-map: it works item by item, keeping the order
    * and inserting nothing, so a prefix of the generator's output gives a
    * prefix of the body. */
  lemma {:induction false} SafeStreamConcat(a: seq<Item>, b: seq<Item>)
    ensures SafeStream(a + b) == SafeStream(a) + SafeStream(b)
  {
    if a == [] {
      assert a + b == b;
    } else {
      assert (a + b)[0] == a[0];
      assert (a + b)[1..] == a[1..] + b;
      SafeStreamConcat(a[1..], b);
    }
  }

  /** ... and each single item gives nothing, its encoding, or itself. */
  lemma SafeStreamSingle(x: Item)
    ensures x.NoneItem? ==> SafeStream([x]) == []
    ensures x.TextItem? ==> SafeStream([x]) == [Encode(x.text)]
    ensures x.BytesItem? ==> SafeStream([x]) == [x.bytes]
  {
  }

  /** What `sse` returns, as a generator item. */
  function ItemOf(frame: Option<seq<byte>>): (r: Item)
    ensures r.NoneItem? <==> frame.None?
  {
    if frame.None? then NoneItem else BytesItem(frame.value)
  }

  /** The response: its headers and the body the stream yields. */
  datatype Response = Response(headers: seq<(string, string)>, body: seq<seq<byte>>)

  const StreamHeaders: seq<(string, string)> := [
    ("Content-Type", "text/event-stream"),
    ("Cache-Control", "no-cache, no-transform"),
    ("Connection", "keep-alive"),
    ("X-Accel-Buffering", "no")]

  /** `rag_chat`: the response is declared an event stream that must not be
    * cached, transformed or buffered, and its body is the generator's
    * output through `_safe_stream`. */
  function RagChatResponse(items: seq<Item>): (r: Response)
    ensures ("Content-Type", "text/event-stream") in r.headers
    ensures ("Cache-Control", "no-cache, no-transform") in r.headers
    ensures ("X-Accel-Buffering", "no") in r.headers
    ensures r.body == SafeStream(items)
  {
    Response(StreamHeaders, SafeStream(items))
  }
}
