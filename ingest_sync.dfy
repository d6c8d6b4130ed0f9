/** The synchronous ingestion of one attachment (`ingest_sync.py`): the
  * stored path is split into bucket and object path, images are skipped,
  * the text is extracted, split into chunks numbered in order, and the
  * chunks are inserted in batches of at most one hundred. Downloads,
  * embeddings and inserts are inputs of the model. */
module IngestSync {
  import opened Wrappers
  import opened Text
  import opened IngestDocument
  import Attachments

  /** `_split_storage_path(storage_path)`, `defaultBucket` standing for
    * `DEFAULT_STORAGE_BUCKET`: a path whose first segment names a known
    * bucket is split at its first "/"; any other path is an object path
    * in the default bucket. */
  function SplitStoragePath(path: string, defaultBucket: string): (r: (string, string))
    ensures path == "" ==> r == (defaultBucket, "")
    ensures '/' in path && (SplitFirst(path, '/').0 in {"private", "public"} || SplitFirst(path, '/').0 == defaultBucket)
      ==> r == SplitFirst(path, '/')
    ensures !('/' in path && (SplitFirst(path, '/').0 in {"private", "public"} || SplitFirst(path, '/').0 == defaultBucket))
      ==> r == (defaultBucket, path)
  {
    if path == [] then (defaultBucket, "")
    else if '/' in path && (SplitFirst(path, '/').0 in {"private", "public"} || SplitFirst(path, '/').0 == defaultBucket)
    then SplitFirst(path, '/')
    else (defaultBucket, path)
  }

  /** Bucket and object path give back the stored path: either the object
    * path is the whole stored path, or bucket, "/" and object path are.
    * So the object path is empty only for an empty path or a bare bucket
    * prefix such as "private/". */
  lemma SplitStoragePathRejoins(path: string, defaultBucket: string)
    ensures var (bucket, objectPath) := SplitStoragePath(path, defaultBucket);
      objectPath == path || bucket + "/" + objectPath == path
    ensures var (bucket, objectPath) := SplitStoragePath(path, defaultBucket);
      objectPath == "" ==> path == "" || path == bucket + "/"
  {
    var (bucket, objectPath) := SplitStoragePath(path, defaultBucket);
    if objectPath != path {
      assert path == bucket + ['/'] + objectPath;
      assert path == bucket + "/" + objectPath;
    }
  }

  const ImageExtensions: seq<string> :=
    [".png", ".jpg", ".jpeg", ".gif", ".webp", ".bmp", ".svg", ".tif", ".tiff", ".heic", ".ico"]


  /** A lower-case hexadecimal digit. */
  function HexLower(d: nat): char
    requires d < 16
  {
    if d < 10 then ('0' as int + d) as char else ('a' as int + d - 10) as char
  }

  /** One character inside Python's `repr` of a string quoted with `q`:
    * the quote and the backslash are escaped, tab, line feed and carriage
    * return by name, other ASCII control characters as `\xNN`. */
  function ReprChar(c: char, q: char): (r: string)
    ensures |r| >= 1
    ensures r == [c] <==> c != q && c != '\\' && 32 <= c as int && c as int != 127
  {
    if c == q || c == '\\' then ['\\', c]
    else if c == '\t' then "\\t"
    else if c == '\n' then "\\n"
    else if c == '\r' then "\\r"
    else if c as int < 32 || c as int == 127 then ['\\', 'x', HexLower(c as int / 16), HexLower(c as int % 16)]
    else [c]
  }

  function ReprBody(s: string, q: char): string
  {
    if s == [] then [] else ReprChar(s[0], q) + ReprBody(s[1..], q)
  }

  /** A character that `repr` writes as itself in single quotes. */
  predicate PlainChar(c: char)
  {
    c != '\'' && c != '"' && c != '\\' && 32 <= c as int && c as int != 127
  }

  /** `repr(s)` for a string, as `{storage_path!r}` formats it: single
    * quotes, unless the text holds a single quote and no double quote. */
  function PyRepr(s: string): (r: string)
    ensures |r| >= 2 && r[0] == r[|r| - 1]
    ensures r[0] == (if '\'' in s && '"' !in s then '"' else '\'')
  {
    var q := if '\'' in s && '"' !in s then '"' else '\'';
    [q] + ReprBody(s, q) + [q]
  }

  /** A text of plain characters is written between single quotes as it is. */
  lemma {:induction false} ReprBodyPlain(s: string, q: char)
    requires q == '\'' && forall i :: 0 <= i < |s| ==> PlainChar(s[i])
    ensures ReprBody(s, q) == s
  {
    if s != [] {
      ReprBodyPlain(s[1..], q);
      assert s == [s[0]] + s[1..];
    }
  }

  lemma PyReprPlain(s: string)
    requires forall i :: 0 <= i < |s| ==> PlainChar(s[i])
    ensures PyRepr(s) == "'" + s + "'"
  {
    ReprBodyPlain(s, '\'');
  }

  /** The two paths the split leaves without an object path read, in the
    * error message, as `''` and `'private/'`. */
  lemma InvalidPathsQuoted()
    ensures PyRepr("") == "''"
    ensures PyRepr("private/") == "'private/'"
  {
    PyReprPlain("private/");
  }

  /** `_is_image(mime, object_path)`: the type says image, or the lower-cased
    * file name has one of the image extensions. */
  function IsImage(mime: Option<string>, objectPath: string): (r: bool)
    ensures r <==> (Truthy(mime) && StartsWith(mime.value, "image/")) || EndsWithAny(Lower(objectPath), ImageExtensions)
  {
    if Truthy(mime) && StartsWith(mime.value, "image/") then true
    else EndsWithAny(Lower(objectPath), ImageExtensions)
  }

  /** Whatever the attachment queue of the web client classes as an image
    * is skipped here too. */
  lemma QueuedImagesSkipped(m: string, objectPath: string)
    requires Attachments.ToKind(m) == Attachments.ImageKind
    ensures IsImage(Some(m), objectPath)
  {
  }

  /** The file name endings this worker reads as text. */
  const SyncTextExtensions: seq<string> := TextExtensions + [".json"]

  /** The extractor `ingest_sync_from_attachment` chooses. It follows the
    * order of `ingest_from_storage`, but its text family also takes the
    * ".json" extension. */
  function SyncExtractor(mime: string, path: string): (e: Extractor)
    ensures e == Pdf <==> mime in PdfMime || EndsWith(Lower(path), ".pdf")
  {
    var lower := Lower(path);
    if mime in PdfMime || EndsWith(lower, ".pdf") then Pdf
    else if mime in DocMime || EndsWith(lower, ".docx") then Docx
    else if mime in PptMime || EndsWith(lower, ".pptx") then Pptx
    else if mime in TextMime || EndsWithAny(lower, SyncTextExtensions) then
      if StartsWith(mime, "text/markdown") || EndsWithAny(lower, [".md", ".markdown"]) then Markdown
      else if mime == "text/html" || EndsWithAny(lower, [".html", ".htm"]) then Html
      else if mime == "application/json" || EndsWith(lower, ".json") then JsonText
      else Plain
    else if mime in CsvMime || EndsWithAny(lower, [".csv", ".tsv"]) then CsvLike
    else Plain
  }

  /** Both workers choose the same extractor for every file whose name does
    * not end in ".json". */
  lemma ExtractorsAgree(mime: string, path: string)
    requires !EndsWith(Lower(path), ".json")
    ensures SyncExtractor(mime, path) == DocumentExtractor(mime, path)
  {
    EndsWithAnyAppend(Lower(path), TextExtensions, ".json");
  }

  /** A name ending in ".json" ends in none of the other extensions the
    * extractors look for. */
  lemma JsonEndingExcludes(lower: string)
    requires EndsWith(lower, ".json")
    ensures !EndsWith(lower, ".pdf") && !EndsWith(lower, ".docx") && !EndsWith(lower, ".pptx")
    ensures !EndsWithAny(lower, TextExtensions) && EndsWithAny(lower, SyncTextExtensions)
    ensures !EndsWithAny(lower, [".md", ".markdown"]) && !EndsWithAny(lower, [".html", ".htm"])
    ensures !EndsWithAny(lower, [".csv", ".tsv"])
  {
    EndingsAgree(lower, ".pdf", ".json", 1);
    EndingsAgree(lower, ".docx", ".json", 1);
    EndingsAgree(lower, ".pptx", ".json", 1);
    JsonNotText(lower);
    JsonNotTable(lower);
  }

  lemma JsonNotText(lower: string)
    requires EndsWith(lower, ".json")
    ensures !EndsWithAny(lower, TextExtensions) && EndsWithAny(lower, SyncTextExtensions)
    ensures !EndsWithAny(lower, [".md", ".markdown"]) && !EndsWithAny(lower, [".html", ".htm"])
  {
    EndsWithAnyAppend(lower, TextExtensions, ".json");
    EndingsAgree(lower, ".txt", ".json", 1);
    JsonNotMarkup(lower);
  }

  lemma JsonNotMarkup(lower: string)
    requires EndsWith(lower, ".json")
    ensures !EndsWith(lower, ".md") && !EndsWith(lower, ".markdown")
    ensures !EndsWith(lower, ".html") && !EndsWith(lower, ".htm")
  {
    EndingsAgree(lower, ".md", ".json", 1);
    EndingsAgree(lower, ".markdown", ".json", 2);
    EndingsAgree(lower, ".html", ".json", 1);
    EndingsAgree(lower, ".htm", ".json", 1);
  }

  lemma JsonNotTable(lower: string)
    requires EndsWith(lower, ".json")
    ensures !EndsWithAny(lower, [".csv", ".tsv"])
  {
    EndingsAgree(lower, ".csv", ".json", 1);
    EndingsAgree(lower, ".tsv", ".json", 1);
  }

  /** A ".json" file whose type is not a text type is read as JSON by this
    * worker ... */
  lemma JsonFileReadAsJson(mime: string, path: string)
    requires EndsWith(Lower(path), ".json")
    requires mime !in PdfMime && mime !in DocMime && mime !in PptMime
    requires !StartsWith(mime, "text/markdown") && mime != "text/html"
    ensures SyncExtractor(mime, path) == JsonText
  {
    JsonEndingExcludes(Lower(path));
  }

  /** ... but as plain text by `ingest_from_storage`. */
  lemma JsonFileReadAsPlain(mime: string, path: string)
    requires EndsWith(Lower(path), ".json")
    requires mime !in PdfMime && mime !in DocMime && mime !in PptMime && mime !in TextMime && mime !in CsvMime
    ensures DocumentExtractor(mime, path) == Plain
  {
    JsonEndingExcludes(Lower(path));
  }

  /** The columns every chunk row of one document shares. */
  datatype RowContext = RowContext(documentId: string, ownerUserId: string, projectId: string, threadId: string,
                                   title: string, source: string)

  /** A row of `chunks` (its embedding vector left out). */
  datatype ChunkRow = ChunkRow(ctx: RowContext, chunkIndex: nat, text: string, page: Option<int>)

  /** One piece of text produced by the splitter, with its page. */
  datatype Piece = Piece(text: string, page: Option<int>)

  function PiecesOf(t: Extracted, split: string -> seq<string>): (r: seq<Piece>)
    ensures |r| == |split(t.text)|
    ensures forall i :: 0 <= i < |r| ==> r[i] == Piece(split(t.text)[i], t.page)
  {
    seq(|split(t.text)|, i requires 0 <= i < |split(t.text)| => Piece(split(t.text)[i], t.page))
  }

  /** The pieces of all non-blank texts, in order. */
  function Pieces(extracted: seq<Extracted>, split: string -> seq<string>): seq<Piece>
  {
    if extracted == [] then []
    else
      var last := extracted[|extracted| - 1];
      Pieces(extracted[..|extracted| - 1], split) + (if Blank(last.text) then [] else PiecesOf(last, split))
  }

  lemma PiecesSnoc(extracted: seq<Extracted>, i: nat, split: string -> seq<string>)
    requires i < |extracted|
    ensures Pieces(extracted[..i + 1], split)
      == Pieces(extracted[..i], split) + (if Blank(extracted[i].text) then [] else PiecesOf(extracted[i], split))
  {
    assert extracted[..i + 1][..i] == extracted[..i];
  }

  /** The rows of the chunking loop: the k-th piece becomes the row with
    * `chunk_index` k. */
  predicate NumberedRows(rows: seq<ChunkRow>, pieces: seq<Piece>, ctx: RowContext)
  {
    && |rows| == |pieces|
    && forall k :: 0 <= k < |rows| ==> rows[k] == ChunkRow(ctx, k, pieces[k].text, pieces[k].page)
  }

  lemma NumberedSnoc(rows: seq<ChunkRow>, pieces: seq<Piece>, ctx: RowContext, p: Piece)
    requires NumberedRows(rows, pieces, ctx)
    ensures NumberedRows(rows + [ChunkRow(ctx, |rows|, p.text, p.page)], pieces + [p], ctx)
  {
  }

  /** The inner loop of the chunking: the pieces of one text are appended
    * with the next chunk numbers. */
  method AppendPieces(rows: seq<ChunkRow>, chunkIdx: nat, ghost before: seq<Piece>, t: Extracted,
                      split: string -> seq<string>, ctx: RowContext)
    returns (rows': seq<ChunkRow>, chunkIdx': nat)
    requires chunkIdx == |rows| && NumberedRows(rows, before, ctx)
    ensures chunkIdx' == |rows'| && NumberedRows(rows', before + PiecesOf(t, split), ctx)
  {
    rows', chunkIdx' := rows, chunkIdx;
    var pieces := split(t.text);
    ghost var ps := PiecesOf(t, split);
    var j := 0;
    while j < |pieces|
      invariant 0 <= j <= |pieces| == |ps|
      invariant chunkIdx' == |rows'|
      invariant NumberedRows(rows', before + ps[..j], ctx)
    {
      NumberedSnoc(rows', before + ps[..j], ctx, ps[j]);
      rows' := rows' + [ChunkRow(ctx, chunkIdx', pieces[j], t.page)];
      chunkIdx' := chunkIdx' + 1;
      assert before + ps[..j + 1] == before + ps[..j] + [ps[j]];
      j := j + 1;
    }
    assert ps[..j] == ps;
  }

  /** The chunking loop of `ingest_sync_from_attachment`: blank texts are
    * skipped, every other text is split, and `chunk_idx` numbers the
    * pieces 0, 1, 2, ... across all texts. */
  method BuildChunks(extracted: seq<Extracted>, split: string -> seq<string>, ctx: RowContext)
    returns (rows: seq<ChunkRow>)
    ensures NumberedRows(rows, Pieces(extracted, split), ctx)
  {
    rows := [];
    var chunkIdx := 0;
    var i := 0;
    while i < |extracted|
      invariant 0 <= i <= |extracted|
      invariant chunkIdx == |rows|
      invariant NumberedRows(rows, Pieces(extracted[..i], split), ctx)
    {
      PiecesSnoc(extracted, i, split);
      if !Blank(extracted[i].text) {
        rows, chunkIdx := AppendPieces(rows, chunkIdx, Pieces(extracted[..i], split), extracted[i], split, ctx);
      }
      i := i + 1;
    }
    assert extracted[..i] == extracted;
  }

  function Flatten<T>(batches: seq<seq<T>>): seq<T>
  {
    if batches == [] then [] else Flatten(batches[..|batches| - 1]) + batches[|batches| - 1]
  }

  const BATCH: nat := 100

  /** The batch that starts at `start`: `rows[start:start + BATCH]`. */
  function BatchAt<T>(rows: seq<T>, start: nat): (b: seq<T>)
    requires start <= |rows|
    ensures |b| <= BATCH
    ensures start < |rows| ==> |b| >= 1
  {
    rows[start..if start + BATCH <= |rows| then start + BATCH else |rows|]
  }

  /** The batches posted so far are the first batches of `rows`: the
    * n-th one is `rows[100 n:100 n + 100]`. */
  ghost predicate Batched<T>(rows: seq<T>, posted: seq<seq<T>>)
  {
    && BATCH * |posted| <= |rows| + BATCH
    && forall i :: 0 <= i < |posted| ==> BATCH * i <= |rows| && posted[i] == BatchAt(rows, BATCH * i)
  }

  lemma BatchedSnoc<T>(rows: seq<T>, posted: seq<seq<T>>, b: seq<T>)
    requires Batched(rows, posted) && BATCH * |posted| < |rows| && b == BatchAt(rows, BATCH * |posted|)
    ensures Batched(rows, posted + [b])
  {
    forall i | 0 <= i < |posted| + 1
      ensures BATCH * i <= |rows| && (posted + [b])[i] == BatchAt(rows, BATCH * i)
    {
      if i < |posted| {
        assert (posted + [b])[i] == posted[i];
      }
    }
  }

  lemma FlattenSnoc<T>(rows: seq<T>, posted: seq<seq<T>>, n: nat, m: nat)
    requires n <= m <= |rows| && Flatten(posted) == rows[..n]
    ensures Flatten(posted + [rows[n..m]]) == rows[..m]
  {
    assert (posted + [rows[n..m]])[..|posted|] == posted;
    assert rows[..m] == rows[..n] + rows[n..m];
  }

  /** What the insert loop keeps: the batches posted so far are the first
    * batches of `rows`, each accepted, and together they are the first
    * `inserted` rows. */
  ghost predicate PostedPrefix<T>(rows: seq<T>, posted: seq<seq<T>>, inserted: nat, postOk: nat -> bool)
  {
    && Batched(rows, posted)
    && inserted <= |rows| && Flatten(posted) == rows[..inserted]
    && forall i :: 0 <= i < |posted| ==> 1 <= |posted[i]| <= BATCH && postOk(i)
  }

  lemma PostedPrefixSnoc<T>(rows: seq<T>, posted: seq<seq<T>>, postOk: nat -> bool)
    requires BATCH * |posted| < |rows| && PostedPrefix(rows, posted, BATCH * |posted|, postOk) && postOk(|posted|)
    ensures var b := BatchAt(rows, BATCH * |posted|);
      PostedPrefix(rows, posted + [b], BATCH * |posted| + |b|, postOk)
  {
    var b := BatchAt(rows, BATCH * |posted|);
    BatchedSnoc(rows, posted, b);
    FlattenSnoc(rows, posted, BATCH * |posted|, BATCH * |posted| + |b|);
  }

  /** The insert loop: `rows` is posted in slices of at most `BATCH`, in
    * order; `postOk(n)` says whether the n-th post succeeds. A failed post
    * ends the loop with the rows before it inserted. */
  method InsertBatches<T>(rows: seq<T>, postOk: nat -> bool)
    returns (inserted: nat, posted: seq<seq<T>>, failed: bool)
    ensures PostedPrefix(rows, posted, inserted, postOk)
    ensures !failed ==> inserted == |rows|
    ensures failed ==> inserted == BATCH * |posted| < |rows| && !postOk(|posted|)
  {
    inserted, posted, failed := 0, [], false;
    var i := 0;
    while i < |rows|
      invariant i == BATCH * |posted|
      invariant inserted == if i < |rows| then i else |rows|
      invariant PostedPrefix(rows, posted, inserted, postOk)
    {
      var batch := BatchAt(rows, i);
      if !postOk(|posted|) {
        failed := true;
        return;
      }
      PostedPrefixSnoc(rows, posted, postOk);
      posted := posted + [batch];
      inserted := inserted + |batch|;
      i := i + BATCH;
    }
  }

  /** An `attachments` row as the worker reads it. */
  datatype AttachmentRow = AttachmentRow(threadId: string, projectId: string, ownerUserId: string,
                                         storagePath: Option<string>, mime: Option<string>, title: Option<string>)

  /** What `ingest_sync_from_attachment` ends with: an error it raises, the
    * early return for images, the chunks it built and inserted, or a
    * failed insert after some batches went in. */
  datatype SyncOutcome =
    | SyncFailed(error: string)
    | SkippedImage
    | Synced(rows: seq<ChunkRow>, posted: seq<seq<ChunkRow>>, inserted: nat)
    | InsertFailed(rows: seq<ChunkRow>, posted: seq<seq<ChunkRow>>)

  /** `att.get("storage_path") or ""` split into bucket and object path. */
  function LocationOf(a: AttachmentRow, defaultBucket: string): (string, string)
  {
    SplitStoragePath(a.storagePath.GetOr(""), defaultBucket)
  }

  /** The attachment row, when the lookup answered and found one. */
  function Found(att: Remote<Option<AttachmentRow>>): (r: Option<AttachmentRow>)
    ensures r.Some? <==> att.Ok? && att.value.Some?
    ensures r.Some? ==> r == att.value
  {
    if att.Ok? then att.value else None
  }

  /** `ingest_sync_from_attachment(attachment_id, user_token)`. Each remote
    * call is an input: `att` is the answer of the `attachments` lookup,
    * `raw` the storage download (as what the extractors make of the bytes),
    * `docRows` the ids in the answer of the `documents` insert, and
    * `postOk(n)` whether the n-th `chunks` post succeeds. */
  method IngestSyncFromAttachment(attachmentId: string, att: Remote<Option<AttachmentRow>>, defaultBucket: string,
                                  guess: string -> Option<string>, raw: Remote<Content>,
                                  docRows: Remote<seq<string>>, split: string -> seq<string>, postOk: nat -> bool)
    returns (r: SyncOutcome)
    ensures Found(att).None? ==> r.SyncFailed?
    ensures att.Fail? ==> r == SyncFailed(att.message)
    ensures Found(att).Some? ==>
      var a := Found(att).value;
      var (bucket, objectPath) := LocationOf(a, defaultBucket);
      var e := SyncExtractor(GuessMime(objectPath, a.mime, guess), objectPath);
      && (objectPath == "" ==> r == SyncFailed("invalid storage_path: " + PyRepr(a.storagePath.GetOr(""))))
      && (objectPath != "" ==> (r.SkippedImage? <==> IsImage(a.mime, objectPath)))
      && (objectPath != "" && !IsImage(a.mime, objectPath) ==>
            (r.SyncFailed? <==>
               raw.Fail? || Extract(e, raw.value).Failure? || docRows.Fail? || docRows.value == []))
    ensures (r.Synced? || r.InsertFailed?) ==>
      && Found(att).Some? && raw.Ok? && docRows.Ok? && docRows.value != []
      && var a := Found(att).value;
      && var (bucket, objectPath) := LocationOf(a, defaultBucket);
      && var e := SyncExtractor(GuessMime(objectPath, a.mime, guess), objectPath);
      && var ctx := RowContext(docRows.value[0], a.ownerUserId, a.projectId, a.threadId,
                               if Truthy(a.title) then a.title.value else "Untitled",
                               bucket + "/" + objectPath);
      && Extract(e, raw.value).Success?
      && NumberedRows(r.rows, Pieces(Extract(e, raw.value).value, split), ctx)
    ensures r.Synced? ==>
      r.inserted == |r.rows| && Flatten(r.posted) == r.rows && PostedPrefix(r.rows, r.posted, r.inserted, postOk)
    ensures r.InsertFailed? ==>
      && BATCH * |r.posted| < |r.rows| && Flatten(r.posted) == r.rows[..BATCH * |r.posted|]
      && PostedPrefix(r.rows, r.posted, BATCH * |r.posted|, postOk) && !postOk(|r.posted|)
  {
    if att.Fail? {
      return SyncFailed(att.message);
    }
    if att.value.None? {
      return SyncFailed("attachment not found: " + attachmentId);
    }
    var a := att.value.value;
    var storagePath := a.storagePath.GetOr("");
    var title := if Truthy(a.title) then a.title.value else "Untitled";
    var (bucket, objectPath) := SplitStoragePath(storagePath, defaultBucket);
    if objectPath == "" {
      return SyncFailed("invalid storage_path: " + PyRepr(storagePath));
    }
    if IsImage(a.mime, objectPath) {
      return SkippedImage;
    }
    if raw.Fail? {
      return SyncFailed(raw.message);
    }
    var mime := GuessMime(objectPath, a.mime, guess);
    var extracted := Extract(SyncExtractor(mime, objectPath), raw.value);
    if extracted.Failure? {
      return SyncFailed(extracted.error);
    }
    if docRows.Fail? {
      return SyncFailed(docRows.message);
    }
    if docRows.value == [] {
      return SyncFailed("IndexError: list index out of range");
    }
    var ctx := RowContext(docRows.value[0], a.ownerUserId, a.projectId, a.threadId, title, bucket + "/" + objectPath);
    var rows := BuildChunks(extracted.value, split, ctx);
    var inserted, posted, failed := InsertBatches(rows, postOk);
    if failed {
      return InsertFailed(rows, posted);
    }
    assert rows[..inserted] == rows;
    return Synced(rows, posted, inserted);
  }
}
