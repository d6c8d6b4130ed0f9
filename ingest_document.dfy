/** The document-ingestion worker (`ingest_RAG_document.py`): choosing a
  * MIME type and an extractor for a stored file, scrubbing the control
  * characters PostgreSQL refuses, stripping Markdown front matter, and
  * turning the extracted texts into chunk documents for the vector store.
  * The extraction libraries, the text splitter and the vector store are
  * inputs of the model. */
module IngestDocument {
  import opened Wrappers
  import opened Text

  const TextMime: set<string> := {"text/plain", "text/markdown", "text/x-markdown", "text/html",
                                  "application/json", "text/csv", "text/tab-separated-values"}
  const DocMime: set<string> := {"application/vnd.openxmlformats-officedocument.wordprocessingml.document"}
  const PptMime: set<string> := {"application/vnd.openxmlformats-officedocument.presentationml.presentation"}
  const PdfMime: set<string> := {"application/pdf"}
  const CsvMime: set<string> := {"text/csv", "text/tab-separated-values", "application/vnd.ms-excel"}

  /** `_guess_mime(object_path, provided)`: a provided type wins; otherwise
    * the guess from the file name (`guess` stands for
    * `mimetypes.guess_type`); otherwise the generic binary type. The result
    * is never empty. */
  function GuessMime(path: string, provided: Option<string>, guess: string -> Option<string>): (r: string)
    ensures r != ""
    ensures Truthy(provided) ==> r == provided.value
    ensures !Truthy(provided) && Truthy(guess(path)) ==> r == guess(path).value
    ensures !Truthy(provided) && !Truthy(guess(path)) ==> r == "application/octet-stream"
  {
    if Truthy(provided) then provided.value
    else if Truthy(guess(path)) then guess(path).value
    else "application/octet-stream"
  }

  /** The characters `_CTRL_RE` matches: the C0 controls except tab, line
    * feed and carriage return. */
  predicate IsScrubbed(c: char)
  {
    ('\U{0000}' <= c <= '\U{0008}') || c == '\U{000B}' || c == '\U{000C}' || ('\U{000E}' <= c <= '\U{001F}')
  }

  /** `_clean_text(s)`: every scrubbed character becomes a space; all other
    * characters, tab, line feed and carriage return included, stay where
    * they are. */
  function CleanText(s: string): (r: string)
    ensures |r| == |s|
    ensures forall i :: 0 <= i < |s| ==> !IsScrubbed(r[i])
    ensures forall i :: 0 <= i < |s| && !IsScrubbed(s[i]) ==> r[i] == s[i]
    ensures forall i :: 0 <= i < |s| && IsScrubbed(s[i]) ==> r[i] == ' '
  {
    if s == [] then s
    else [if IsScrubbed(s[0]) then ' ' else s[0]] + CleanText(s[1..])
  }

  /** A text without scrubbed characters is left as it is. */
  lemma {:induction false} CleanTextFixes(s: string)
    requires forall i :: 0 <= i < |s| ==> !IsScrubbed(s[i])
    ensures CleanText(s) == s
  {
    if s != [] {
      assert forall i :: 0 <= i < |s[1..]| ==> !IsScrubbed(s[1..][i]);
      CleanTextFixes(s[1..]);
    }
  }

  /** Cleaning twice is cleaning once. */
  lemma CleanTextIdempotent(s: string)
    ensures CleanText(CleanText(s)) == CleanText(s)
  {
    CleanTextFixes(CleanText(s));
  }

  /** `_strip_frontmatter(md)`: `re.sub(r"^---.*?---", "", md, flags=re.DOTALL)`.
    * Without MULTILINE the anchor only matches at the start of the text, so
    * a text opening with "---" loses everything up to and including the
    * first later "---"; any other text is unchanged. */
  function StripFrontmatter(md: string): (r: string)
    ensures !StartsWith(md, "---") ==> r == md
    ensures StartsWith(md, "---") && FindFrom(md, "---", 3).None? ==> r == md
    ensures StartsWith(md, "---") && FindFrom(md, "---", 3).Some? ==>
      var k := FindFrom(md, "---", 3).value; r == md[k + 3..]
    ensures EndsWith(md, r)
  {
    if !StartsWith(md, "---") then md
    else match FindFrom(md, "---", 3)
      case None => md
      case Some(k) => md[k + 3..]
  }

  /** The block removed is the shortest one: it opens and closes with
    * "---", and no "---" starts between the opening one and the closing
    * one. */
  lemma FrontmatterShortest(md: string)
    requires StartsWith(md, "---") && FindFrom(md, "---", 3).Some?
    ensures var k := FindFrom(md, "---", 3).value;
      && md == md[..k + 3] + StripFrontmatter(md)
      && StartsWith(md[..k + 3], "---") && EndsWith(md[..k + 3], "---")
      && forall j :: 3 <= j < k ==> !At(md, j, "---")
  {
    var k := FindFrom(md, "---", 3).value;
    assert md[..k + 3][k..] == md[k..k + 3];
  }

  /** The extractors `ingest_from_storage` chooses between. */
  datatype Extractor = Pdf | Docx | Pptx | Markdown | Html | JsonText | Plain | CsvLike

  /** The file name endings read as text by `ingest_from_storage`. */
  const TextExtensions: seq<string> := [".txt", ".md", ".markdown", ".html", ".htm"]

  /** The extractor chosen by `ingest_from_storage` for a type and a file
    * name: PDF, Word, PowerPoint, then the text family (Markdown, HTML,
    * JSON, plain), then CSV/TSV, and plain text for everything else. */
  function DocumentExtractor(mime: string, path: string): (e: Extractor)
    ensures e == Pdf <==> mime in PdfMime || EndsWith(Lower(path), ".pdf")
    ensures e == CsvLike ==> mime !in TextMime
  {
    var lower := Lower(path);
    if mime in PdfMime || EndsWith(lower, ".pdf") then Pdf
    else if mime in DocMime || EndsWith(lower, ".docx") then Docx
    else if mime in PptMime || EndsWith(lower, ".pptx") then Pptx
    else if mime in TextMime || EndsWithAny(lower, TextExtensions) then
      if StartsWith(mime, "text/markdown") || EndsWithAny(lower, [".md", ".markdown"]) then Markdown
      else if mime == "text/html" || EndsWithAny(lower, [".html", ".htm"]) then Html
      else if mime == "application/json" || EndsWith(lower, ".json") then JsonText
      else Plain
    else if mime in CsvMime || EndsWithAny(lower, [".csv", ".tsv"]) then CsvLike
    else Plain
  }

  /** One extracted text and its page number (PDF pages count from 1). */
  datatype Extracted = Extracted(text: string, page: Option<int>)

  /** What the extraction libraries make of the downloaded bytes: the
    * decoded text (`_decode_bytes` before cleaning) and the outputs of the
    * PDF, Word and JSON extractors. */
  datatype Content = Content(decoded: string, pdf: seq<Extracted>, docx: seq<Extracted>, json: seq<Extracted>)

  /** `_decode_bytes`: the decoded text, cleaned. */
  function DecodeBytes(c: Content): string
  {
    CleanText(c.decoded)
  }

  /** What an extractor yields: its texts, or the error it raises.
    * `_extract_html` applies the pattern `{2,}`, which Python's `re` refuses
    * to compile ("nothing to repeat"), and `_extract_pptx` reads `.shapes`
    * of the raw bytes it is given; both raise on every input. */
  function Extract(e: Extractor, c: Content): (r: Result<seq<Extracted>>)
    ensures r.Failure? <==> e == Html || e == Pptx
    ensures e == Markdown ==> r == Success([Extracted(StripFrontmatter(DecodeBytes(c)), None)])
    ensures e == Plain || e == CsvLike ==> r == Success([Extracted(DecodeBytes(c), None)])
  {
    match e
    case Pdf => Success(c.pdf)
    case Docx => Success(c.docx)
    case Pptx => Failure("AttributeError: 'bytes' object has no attribute 'shapes'")
    case Markdown => Success([Extracted(StripFrontmatter(DecodeBytes(c)), None)])
    case Html => Failure("re.error: nothing to repeat at position 0")
    case JsonText => Success(c.json)
    case Plain => Success([Extracted(DecodeBytes(c), None)])
    case CsvLike => Success([Extracted(DecodeBytes(c), None)])
  }

  /** `not (text and text.strip())`: the text is empty or all white
    * space, so stripping it leaves nothing. */
  predicate Blank(text: string)
  {
    forall i :: 0 <= i < |text| ==> IsPySpace(text[i])
  }

  lemma BlankStripsToEmpty(text: string)
    requires Blank(text)
    ensures PyStrip(text) == ""
  {
    TrimAllSpace(text, IsPySpace);
  }

  /** The metadata every chunk document carries. */
  datatype DocMeta = DocMeta(projectId: string, attachmentId: string, title: string, source: string, page: Option<int>)

  datatype Document = Document(content: string, meta: DocMeta)

  /** Where the documents come from: the attachment and its location. */
  datatype Origin = Origin(projectId: string, attachmentId: string, title: string, source: string)

  /** The documents of one non-blank extracted text: its cleaned text is
    * split, and each piece, cleaned again, becomes a document. */
  function TextDocuments(t: Extracted, o: Origin, split: string -> seq<string>): (r: seq<Document>)
    ensures |r| == |split(CleanText(t.text))|
    ensures forall i :: 0 <= i < |r| ==>
      r[i] == Document(CleanText(split(CleanText(t.text))[i]), DocMeta(o.projectId, o.attachmentId, o.title, o.source, t.page))
  {
    var pieces := split(CleanText(t.text));
    seq(|pieces|, i requires 0 <= i < |pieces| =>
      Document(CleanText(pieces[i]), DocMeta(o.projectId, o.attachmentId, o.title, o.source, t.page)))
  }

  /** The documents `_to_documents` builds from `texts`, blank texts skipped. */
  function Documents(texts: seq<Extracted>, o: Origin, split: string -> seq<string>): seq<Document>
  {
    if texts == [] then []
    else
      var last := texts[|texts| - 1];
      Documents(texts[..|texts| - 1], o, split) + (if Blank(last.text) then [] else TextDocuments(last, o, split))
  }

  lemma TakeSnoc<T>(s: seq<T>, j: nat)
    requires j < |s|
    ensures s[..j + 1] == s[..j] + [s[j]]
  {
  }

  lemma DocumentsSnoc(texts: seq<Extracted>, i: nat, o: Origin, split: string -> seq<string>)
    requires i < |texts|
    ensures Documents(texts[..i + 1], o, split)
      == Documents(texts[..i], o, split) + (if Blank(texts[i].text) then [] else TextDocuments(texts[i], o, split))
  {
    assert texts[..i + 1][..i] == texts[..i];
  }

  /** `_to_documents(texts, project_id, attachment_id, title, source)`. */
  method ToDocuments(texts: seq<Extracted>, o: Origin, split: string -> seq<string>) returns (docs: seq<Document>)
    ensures docs == Documents(texts, o, split)
  {
    docs := [];
    var i := 0;
    while i < |texts|
      invariant 0 <= i <= |texts|
      invariant docs == Documents(texts[..i], o, split)
    {
      DocumentsSnoc(texts, i, o, split);
      var t := texts[i];
      if !Blank(t.text) {
        var text := CleanText(t.text);
        var pieces := split(text);
        ghost var done := docs;
        ghost var td := TextDocuments(t, o, split);
        var j := 0;
        while j < |pieces|
          invariant 0 <= j <= |pieces| == |td|
          invariant docs == done + td[..j]
        {
          docs := docs + [Document(CleanText(pieces[j]), DocMeta(o.projectId, o.attachmentId, o.title, o.source, t.page))];
          TakeSnoc(td, j);
          j := j + 1;
        }
        assert td[..j] == td;
      }
      i := i + 1;
    }
    assert texts[..i] == texts;
  }

  /** Every document carries the attachment's project, id, title and
    * source, and a cleaned text. */
  lemma {:induction false} DocumentsTagged(texts: seq<Extracted>, o: Origin, split: string -> seq<string>, d: Document)
    requires d in Documents(texts, o, split)
    ensures d.meta.projectId == o.projectId && d.meta.attachmentId == o.attachmentId
    ensures d.meta.title == o.title && d.meta.source == o.source
    ensures forall i :: 0 <= i < |d.content| ==> !IsScrubbed(d.content[i])
  {
    var init := texts[..|texts| - 1];
    var last := texts[|texts| - 1];
    if d in Documents(init, o, split) {
      DocumentsTagged(init, o, split, d);
    } else {
      var pieces := split(CleanText(last.text));
      var i :| 0 <= i < |pieces| && d == TextDocuments(last, o, split)[i];
      assert d.content == CleanText(pieces[i]);
    }
  }

  /** Every document carries the page of a non-blank text it came from. */
  lemma {:induction false} DocumentsPaged(texts: seq<Extracted>, o: Origin, split: string -> seq<string>, d: Document)
    requires d in Documents(texts, o, split)
    ensures exists k :: 0 <= k < |texts| && !Blank(texts[k].text) && d.meta.page == texts[k].page
  {
    var init := texts[..|texts| - 1];
    if d in Documents(init, o, split) {
      DocumentsPaged(init, o, split, d);
      var k :| 0 <= k < |init| && !Blank(init[k].text) && d.meta.page == init[k].page;
      assert texts[k] == init[k];
    } else {
      var k := |texts| - 1;
      assert !Blank(texts[k].text) && d in TextDocuments(texts[k], o, split);
    }
  }

  /** Texts that are all blank give no documents. */
  lemma {:induction false} BlankTextsNoDocuments(texts: seq<Extracted>, o: Origin, split: string -> seq<string>)
    requires forall k :: 0 <= k < |texts| ==> Blank(texts[k].text)
    ensures Documents(texts, o, split) == []
  {
    if texts != [] {
      BlankTextsNoDocuments(texts[..|texts| - 1], o, split);
    }
  }

  /** The outcome of `ingest_from_storage`: the number of chunks and the
    * documents handed to the vector store (`None` when it is not called),
    * or the message of the error it raised. */
  datatype Ingest = Ingested(count: nat, stored: Option<seq<Document>>) | Raised(error: string)

  /** `ingest_from_storage(...)`: the file is downloaded, its type guessed,
    * an extractor chosen and run, the texts turned into documents, and the
    * documents stored only when there are some. The two remote calls are
    * inputs: `download` is the storage answer (as what the extractors make
    * of its bytes) and `storeError` the error the vector store raised, if
    * any. */
  method IngestFromStorage(bucket: string, objectPath: string, projectId: string, attachmentId: string,
                           title: string, mime: Option<string>, guess: string -> Option<string>,
                           download: Remote<Content>, split: string -> seq<string>, storeError: Option<string>)
    returns (r: Ingest)
    ensures download.Fail? ==> r == Raised(download.message)
    ensures download.Ok? ==>
      var e := DocumentExtractor(GuessMime(objectPath, mime, guess), objectPath);
      && (Extract(e, download.value).Failure? <==> e == Html || e == Pptx)
      && (Extract(e, download.value).Failure? ==> r == Raised(Extract(e, download.value).error))
    ensures r.Ingested? ==> (r.count == 0 <==> r.stored.None?)
    ensures download.Ok? ==>
      var e := DocumentExtractor(GuessMime(objectPath, mime, guess), objectPath);
      var o := Origin(projectId, attachmentId, title, bucket + "/" + objectPath);
      Extract(e, download.value).Success? ==>
        var docs := Documents(Extract(e, download.value).value, o, split);
        && (docs == [] ==> r == Ingested(0, None))
        && (docs != [] && storeError.Some? ==> r == Raised(storeError.value))
        && (docs != [] && storeError.None? ==> r == Ingested(|docs|, Some(docs)))
    ensures r.Raised? <==>
      || download.Fail?
      || (var e := DocumentExtractor(GuessMime(objectPath, mime, guess), objectPath);
          || e == Html || e == Pptx
          || (storeError.Some?
              && Documents(Extract(e, download.value).value,
                           Origin(projectId, attachmentId, title, bucket + "/" + objectPath), split) != []))
  {
    if download.Fail? {
      return Raised(download.message);
    }
    var m := GuessMime(objectPath, mime, guess);
    var source := bucket + "/" + objectPath;
    var e := DocumentExtractor(m, objectPath);
    var extracted := Extract(e, download.value);
    if extracted.Failure? {
      return Raised(extracted.error);
    }
    var docs := ToDocuments(extracted.value, Origin(projectId, attachmentId, title, source), split);
    if docs == [] {
      return Ingested(0, None);
    }
    if storeError.Some? {
      return Raised(storeError.value);
    }
    return Ingested(|docs|, Some(docs));
  }
}
