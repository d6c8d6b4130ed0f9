/** `format_hits`: the vector-search hits rendered as the context text
  * the language model receives. */
module Context {
  import opened Wrappers
  import opened Text

  /** A `page` value as it appears in hit metadata: a number or a text. */
  datatype PageRef = PageNum(n: int) | PageText(s: string)

  /** Hit metadata; an absent key is `None`. */
  datatype Meta = Meta(title: Option<string>, source: Option<string>, page: Option<PageRef>)

  /** A hit; `metadata` absent, `None` or `{}` are all `None` here. */
  datatype Hit = Hit(metadata: Option<Meta>, text: Option<string>)

  const NoMeta: Meta := Meta(None, None, None)

  function MetaOf(h: Hit): Meta
  {
    h.metadata.GetOr(NoMeta)
  }

  /** `meta.get("title") or meta.get("source") or ""`. */
  function TitleOf(m: Meta): (t: string)
    ensures Truthy(m.title) ==> t == m.title.value
    ensures !Truthy(m.title) && Truthy(m.source) ==> t == m.source.value
    ensures !Truthy(m.title) && !Truthy(m.source) ==> t == ""
  {
    if Truthy(m.title) then m.title.value else if Truthy(m.source) then m.source.value else ""
  }

  predicate PageTruthy(p: Option<PageRef>)
  {
    p.Some? && (if p.value.PageNum? then p.value.n != 0 else p.value.s != "")
  }

  /** `f"{page}"`. */
  function PageString(p: PageRef): string
  {
    match p
    case PageNum(n) => IntToString(n)
    case PageText(s) => s
  }

  /** The tag line of hit number `i`: "[i] title", then " p.<page>" for a
    * truthy page, then " <source>" for a non-empty source. */
  function Tag(i: nat, m: Meta): (r: string)
    ensures StartsWith(r, "[" + NatToString(i) + "] " + TitleOf(m))
    ensures Truthy(m.source) ==> EndsWith(r, " " + m.source.value)
    ensures !PageTruthy(m.page) && !Truthy(m.source) ==> r == "[" + NatToString(i) + "] " + TitleOf(m)
  {
    var head := "[" + NatToString(i) + "] " + TitleOf(m);
    var withPage := if PageTruthy(m.page) then head + " p." + PageString(m.page.value) else head;
    var r := if Truthy(m.source) then withPage + " " + m.source.value else withPage;
    assert r[..|head|] == head;
    r
  }

  /** One entry: the tag, a line feed, then the text ("" when missing). */
  function Entry(i: nat, h: Hit): (r: string)
    ensures StartsWith(r, "[" + NatToString(i) + "] ")
    ensures EndsWith(r, "\n" + h.text.GetOr(""))
  {
    var tag := Tag(i, MetaOf(h));
    var r := tag + "\n" + h.text.GetOr("");
    assert r[..|tag|] == tag;
    assert StartsWith(tag, "[" + NatToString(i) + "] ") by {
      var pre := "[" + NatToString(i) + "] ";
      assert tag[..|pre + TitleOf(MetaOf(h))|] == pre + TitleOf(MetaOf(h));
      assert (pre + TitleOf(MetaOf(h)))[..|pre|] == pre;
    }
    assert r[|r| - |"\n" + h.text.GetOr("")|..] == "\n" + h.text.GetOr("");
    r
  }

  /** The entries of `hits`, numbered from `start`. */
  function Entries(hits: seq<Hit>, start: nat): (r: seq<string>)
    ensures |r| == |hits|
    ensures forall k :: 0 <= k < |hits| ==> r[k] == Entry(start + k, hits[k])
  {
    seq(|hits|, k requires 0 <= k < |hits| => Entry(start + k, hits[k]))
  }

  /** `format_hits(hits)`: the entries numbered from 1, separated by a
    * blank line. No hits (an empty list or `None`) give "". */
  function FormatHits(hits: Option<seq<Hit>>): (r: string)
    ensures r == "" <==> hits.None? || hits.value == []
    ensures hits.Some? && |hits.value| == 1 ==> r == Entry(1, hits.value[0])
  {
    var hs := hits.GetOr([]);
    var es := Entries(hs, 1);
    if hs == [] then ""
    else
      assert StartsWith(es[0], "[" + NatToString(1) + "] ");
      JoinNonEmpty(es, "\n\n");
      Join(es, "\n\n")
  }

  lemma JoinNonEmpty(parts: seq<string>, sep: string)
    requires parts != [] && |parts[0]| > 0
    ensures |Join(parts, sep)| > 0
  {
  }

  lemma {:induction false} JoinSnoc(parts: seq<string>, last: string, sep: string)
    requires parts != []
    ensures Join(parts + [last], sep) == Join(parts, sep) + sep + last
  {
    if |parts| == 1 {
      assert (parts + [last])[1..] == [last];
    } else {
      assert (parts + [last])[1..] == parts[1..] + [last];
      JoinSnoc(parts[1..], last, sep);
    }
  }

  /** One more hit adds one more entry, numbered after the others and
    * separated from them by a blank line. */
  lemma FormatHitsSnoc(hits: seq<Hit>, h: Hit)
    requires hits != []
    ensures FormatHits(Some(hits + [h])) == FormatHits(Some(hits)) + "\n\n" + Entry(|hits| + 1, h)
  {
    assert Entries(hits + [h], 1) == Entries(hits, 1) + [Entry(|hits| + 1, h)];
    JoinSnoc(Entries(hits, 1), Entry(|hits| + 1, h), "\n\n");
  }
}
