/** The image-management page: the query it sends through the file proxy,
  * the normalisation of the listed rows into images, the on-screen filter,
  * and the local updates after a relink or a delete. */
module FilesPage {
  import opened Wrappers
  import Text
  import opened SearchParams
  import opened BackendClient

  // ---------------------------------------------------------------------
  // apiJson

  /** `path.replace(/^\/+/, "")`: every leading slash removed. */
  function DropLeadingSlashes(p: string): (r: string)
    ensures r == [] || r[0] != '/'
    ensures |r| <= |p| && p[|p| - |r|..] == r
    ensures forall i :: 0 <= i < |p| - |r| ==> p[i] == '/'
  {
    if p != [] && p[0] == '/' then DropLeadingSlashes(p[1..]) else p
  }

  /** A parameter value `apiJson` sends: defined and not the empty string. */
  predicate Sendable(v: JsValue)
  {
    Defined(v) && v != JsString("")
  }

  /** The pairs `apiJson` sets after `path`, in entry order. */
  function SentPairs(params: seq<(string, JsValue)>): (r: Params)
    ensures |r| <= |params|
  {
    if params == [] then []
    else
      var last := params[|params| - 1];
      var init := SentPairs(params[..|params| - 1]);
      if Sendable(last.1) then init + [(last.0, Stringify(last.1))] else init
  }

  /** The query of the proxy request: `path` first, then every sendable
    * parameter set in order. */
  method ApiQuery(path: string, params: seq<(string, JsValue)>) returns (usp: Params)
    ensures usp == SetAll([("path", DropLeadingSlashes(path))], SentPairs(params))
  {
    var first: Params := [];
    usp := Set(first, "path", DropLeadingSlashes(path));
    var i := 0;
    while i < |params|
      invariant 0 <= i <= |params|
      invariant usp == SetAll([("path", DropLeadingSlashes(path))], SentPairs(params[..i]))
    {
      var (k, v) := params[i];
      assert params[..i + 1][..i] == params[..i] && params[..i + 1][i] == (k, v);
      if v != JsUndefined && v != JsNull && v != JsString("") {
        SetAllSnoc([("path", DropLeadingSlashes(path))], SentPairs(params[..i]), k, Stringify(v));
        usp := Set(usp, k, Stringify(v));
      }
      i := i + 1;
    }
    assert params[..i] == params;
  }

  lemma {:induction false} SentPairsNames(params: seq<(string, JsValue)>, k: string)
    requires forall i :: 0 <= i < |params| ==> params[i].0 != k
    ensures LastValue(SentPairs(params), k).None?
  {
    if params != [] {
      var init := params[..|params| - 1];
      assert forall i :: 0 <= i < |init| ==> init[i] == params[i];
      SentPairsNames(init, k);
      var s := SentPairs(params);
      if Sendable(params[|params| - 1].1) {
        assert s[..|s| - 1] == SentPairs(init);
      }
    }
  }

  /** The proxy reads the slash-free path, unless a parameter is itself
    * named `path`; every other name reads as its last sendable value. */
  lemma ApiQueryReads(path: string, params: seq<(string, JsValue)>, k: string)
    ensures (forall i :: 0 <= i < |params| ==> params[i].0 != "path") ==>
      Get(SetAll([("path", DropLeadingSlashes(path))], SentPairs(params)), "path") == Some(DropLeadingSlashes(path))
    ensures k != "path" ==> Get(SetAll([("path", DropLeadingSlashes(path))], SentPairs(params)), k) == LastValue(SentPairs(params), k)
  {
    var base: Params := [("path", DropLeadingSlashes(path))];
    SetAllGet(base, SentPairs(params), k);
    SetAllGet(base, SentPairs(params), "path");
    if forall i :: 0 <= i < |params| ==> params[i].0 != "path" {
      SentPairsNames(params, "path");
    }
  }

  /** What `apiJson` does with the response. */
  datatype ApiResult = ApiThrown(message: string) | ApiJsonBody(json: string) | ApiText(text: string)

  /** A failed response throws "API <status>: <body>", the status text
    * standing in for an empty body; an ok one is parsed as JSON when the
    * content type says so and returned as text otherwise. */
  function ApiResponse(ok: bool, status: nat, statusText: string, contentType: Option<string>, text: string): (r: ApiResult)
    ensures r.ApiThrown? <==> !ok
    ensures r.ApiThrown? ==> Text.StartsWith(r.message, "API " + Text.NatToString(status) + ": ")
    ensures r.ApiThrown? ==>
      r.message == "API " + Text.NatToString(status) + ": " + (if text != "" then text else statusText)
    ensures r.ApiJsonBody? <==> ok && Text.Contains(contentType.GetOr(""), "application/json")
    ensures !r.ApiThrown? ==> (if r.ApiJsonBody? then r.json else r.text) == text
  {
    if !ok then
      var prefix := "API " + Text.NatToString(status) + ": ";
      var m := prefix + (if text != "" then text else statusText);
      assert m[..|prefix|] == prefix;
      ApiThrown(m)
    else if Text.Contains(contentType.GetOr(""), "application/json") then ApiJsonBody(text)
    else ApiText(text)
  }

  // ---------------------------------------------------------------------
  // listImages

  /** A row of the files listing, with the field-name variants the backend
    * may use; `mime` is None when it is not a string. */
  datatype FileRow = FileRow(
    id: string, storagePath: Option<string>, path: Option<string>, key: Option<string>,
    mime: Option<string>, size: Option<int>, title: Option<string>, createdAt: Option<string>,
    projectId: Option<string>, threadId: Option<string>,
    signedUrl: Option<string>, signedUrlSnake: Option<string>, url: Option<string>)

  /** An image as the page keeps it. */
  datatype Image = Image(
    id: string, storagePath: Option<string>, mime: string, size: int, title: Option<string>,
    createdAt: string, projectId: Option<string>, threadId: Option<string>, signedUrl: Option<string>)

  predicate IsImageRow(row: FileRow)
  {
    row.mime.Some? && Text.StartsWith(row.mime.value, "image/")
  }

  /** `a ?? b`. */
  function Coalesce<T>(a: Option<T>, b: Option<T>): (r: Option<T>)
    ensures r.Some? <==> a.Some? || b.Some?
    ensures a.Some? ==> r == a
  {
    if a.Some? then a else b
  }

  /** One row mapped to an image; `now` is the time stamp used when the row
    * has none. */
  function ToImage(row: FileRow, now: string): (img: Image)
    requires IsImageRow(row)
    ensures img.id == row.id && img.mime == row.mime.value && img.title == row.title
    ensures row.storagePath.Some? ==> img.storagePath == row.storagePath
    ensures row.storagePath.None? && row.path.Some? ==> img.storagePath == row.path
    ensures row.storagePath.None? && row.path.None? ==> img.storagePath == row.key
    ensures img.storagePath.Some? <==> row.storagePath.Some? || row.path.Some? || row.key.Some?
    ensures img.signedUrl.Some? <==> row.signedUrl.Some? || row.signedUrlSnake.Some? || row.url.Some?
    ensures row.signedUrl.Some? ==> img.signedUrl == row.signedUrl
    ensures row.signedUrl.None? && row.signedUrlSnake.Some? ==> img.signedUrl == row.signedUrlSnake
    ensures row.signedUrl.None? && row.signedUrlSnake.None? ==> img.signedUrl == row.url
    ensures img.size == row.size.GetOr(0) && img.createdAt == row.createdAt.GetOr(now)
    ensures img.projectId == row.projectId && img.threadId == row.threadId
  {
    Image(row.id, Coalesce(Coalesce(row.storagePath, row.path), row.key), row.mime.value, row.size.GetOr(0),
          row.title, row.createdAt.GetOr(now), row.projectId, row.threadId,
          Coalesce(Coalesce(row.signedUrl, row.signedUrlSnake), row.url))
  }

  /** `listImages`: the image rows, in order, each normalised. */
  function ListImages(rows: seq<FileRow>, now: string): (r: seq<Image>)
    ensures |r| <= |rows|
    ensures forall i :: 0 <= i < |r| ==> Text.StartsWith(r[i].mime, "image/")
  {
    if rows == [] then []
    else
      var rest := ListImages(rows[1..], now);
      if IsImageRow(rows[0]) then [ToImage(rows[0], now)] + rest else rest
  }

  /** Exactly the image rows are listed. */
  lemma {:induction false} ListImagesHas(rows: seq<FileRow>, now: string, row: FileRow)
    requires row in rows
    ensures IsImageRow(row) ==> ToImage(row, now) in ListImages(rows, now)
  {
    if rows[0] != row {
      ListImagesHas(rows[1..], now, row);
    }
  }

  lemma {:induction false} ListImagesFrom(rows: seq<FileRow>, now: string, img: Image)
    requires img in ListImages(rows, now)
    ensures exists row :: row in rows && IsImageRow(row) && img == ToImage(row, now)
  {
    if IsImageRow(rows[0]) && img == ToImage(rows[0], now) {
    } else {
      ListImagesFrom(rows[1..], now, img);
      var row :| row in rows[1..] && IsImageRow(row) && img == ToImage(row, now);
      assert row in rows;
    }
  }

  /** Listing works row by row: the images of two runs of rows are the
    * images of the first followed by those of the second, so the listed
    * images keep the order of their rows and each row gives at most one. */
  lemma {:induction false} ListImagesConcat(a: seq<FileRow>, b: seq<FileRow>, now: string)
    ensures ListImages(a + b, now) == ListImages(a, now) + ListImages(b, now)
  {
    if a == [] {
      assert a + b == b;
    } else {
      assert (a + b)[0] == a[0];
      assert (a + b)[1..] == a[1..] + b;
      ListImagesConcat(a[1..], b, now);
    }
  }

  // ---------------------------------------------------------------------
  // filtered

  const All := "all"

  /** The text the keyword is looked for in: title, a space, the storage
    * path (which reads "undefined" when the row had none). */
  function Haystack(img: Image): string
  {
    img.title.GetOr("") + " " + img.storagePath.GetOr("undefined")
  }

  /** The test `filtered` applies to one image, with `kw` the trimmed,
    * lower-cased keyword. */
  predicate Matches(img: Image, projectFilter: string, threadFilter: string, kw: string)
  {
    (projectFilter == All || img.projectId == Some(projectFilter))
    && (threadFilter == All || img.threadId == Some(threadFilter))
    && (kw == "" || Text.Contains(Text.Lower(Haystack(img)), kw))
  }

  function FilterImages(images: seq<Image>, projectFilter: string, threadFilter: string, kw: string): (r: seq<Image>)
    ensures |r| <= |images|
    ensures forall img :: img in r <==> img in images && Matches(img, projectFilter, threadFilter, kw)
  {
    if images == [] then []
    else
      var rest := FilterImages(images[1..], projectFilter, threadFilter, kw);
      assert forall img :: img in images <==> img == images[0] || img in images[1..];
      if Matches(images[0], projectFilter, threadFilter, kw) then [images[0]] + rest else rest
  }

  /** `filtered`: the images passing the project, thread and keyword tests. */
  function Filtered(images: seq<Image>, projectFilter: string, threadFilter: string, keyword: string): seq<Image>
  {
    FilterImages(images, projectFilter, threadFilter, Text.Lower(Text.JsTrim(keyword)))
  }

  /** With both filters on "all" and a blank keyword every image is shown,
    * in order. */
  lemma {:induction false} NoFilterShowsAll(images: seq<Image>, kw: string)
    requires kw == ""
    ensures FilterImages(images, All, All, kw) == images
  {
    if images != [] {
      NoFilterShowsAll(images[1..], kw);
    }
  }

  /** Filtering works image by image, so the shown images keep their order
    * and multiplicity. */
  lemma {:induction false} FilterImagesConcat(a: seq<Image>, b: seq<Image>, projectFilter: string, threadFilter: string, kw: string)
    ensures FilterImages(a + b, projectFilter, threadFilter, kw)
         == FilterImages(a, projectFilter, threadFilter, kw) + FilterImages(b, projectFilter, threadFilter, kw)
  {
    if a == [] {
      assert a + b == b;
    } else {
      assert (a + b)[0] == a[0];
      assert (a + b)[1..] == a[1..] + b;
      FilterImagesConcat(a[1..], b, projectFilter, threadFilter, kw);
    }
  }

  lemma BlankKeyword(keyword: string)
    requires forall i :: 0 <= i < |keyword| ==> Text.IsJsSpace(keyword[i])
    ensures Text.Lower(Text.JsTrim(keyword)) == ""
  {
    Text.TrimAllSpace(keyword, Text.IsJsSpace);
  }

  // ---------------------------------------------------------------------
  // Local updates

  /** The images after a relink of `id`: that image takes the new project
    * and thread, every other image is as it was. */
  function Relinked(images: seq<Image>, id: string, pid: Option<string>, tid: Option<string>): (r: seq<Image>)
    ensures |r| == |images|
    ensures forall i :: 0 <= i < |r| && images[i].id != id ==> r[i] == images[i]
    ensures forall i :: 0 <= i < |r| && images[i].id == id ==> r[i] == images[i].(projectId := pid, threadId := tid)
  {
    if images == [] then []
    else
      var x := images[0];
      [if x.id == id then x.(projectId := pid, threadId := tid) else x] + Relinked(images[1..], id, pid, tid)
  }

  /** The images without `id`, the rest in order. */
  function RemoveById(images: seq<Image>, id: string): (r: seq<Image>)
    ensures |r| <= |images|
    ensures forall x :: x in r <==> x in images && x.id != id
  {
    if images == [] then []
    else
      var rest := RemoveById(images[1..], id);
      assert forall x :: x in images <==> x == images[0] || x in images[1..];
      if images[0].id == id then rest else [images[0]] + rest
  }

  /** Removing works image by image, so the remaining images keep their
    * order and multiplicity. */
  lemma {:induction false} RemoveByIdConcat(a: seq<Image>, b: seq<Image>, id: string)
    ensures RemoveById(a + b, id) == RemoveById(a, id) + RemoveById(b, id)
  {
    if a == [] {
      assert a + b == b;
    } else {
      assert (a + b)[0] == a[0];
      assert (a + b)[1..] == a[1..] + b;
      RemoveByIdConcat(a[1..], b, id);
    }
  }

  /** "none" and "" in the relink form mean no link. */
  function LinkValue(choice: string): (r: Option<string>)
    ensures r.None? <==> choice == "none" || choice == ""
    ensures r.Some? ==> r.value == choice
  {
    if choice == "none" || choice == "" then None else Some(choice)
  }

  /** A relink request. */
  datatype Relink = Relink(id: string, projectId: Option<string>, threadId: Option<string>)

  /** `short(id)`: the first six characters. */
  function Short(id: string): (r: string)
    ensures |r| == if |id| < 6 then |id| else 6
    ensures Text.StartsWith(id, r)
  {
    if |id| < 6 then id else id[..6]
  }

  class Page {
    var images: seq<Image>

    constructor()
      ensures images == []
    {
      images := [];
    }

    /** `applyRelink`: without a target nothing happens; otherwise the
      * request is sent and, only when it succeeds, the target image takes
      * the new links. */
    method ApplyRelink(target: Option<Image>, newProjectId: string, newThreadId: string, succeeded: bool)
      returns (sent: Option<Relink>)
      modifies this
      ensures sent.None? <==> target.None?
      ensures sent.Some? ==> sent.value == Relink(target.value.id, LinkValue(newProjectId), LinkValue(newThreadId))
      ensures images == if sent.Some? && succeeded
        then Relinked(old(images), target.value.id, LinkValue(newProjectId), LinkValue(newThreadId))
        else old(images)
    {
      if target.None? {
        return None;
      }
      var pid := LinkValue(newProjectId);
      var tid := LinkValue(newThreadId);
      sent := Some(Relink(target.value.id, pid, tid));
      if succeeded {
        images := Relinked(images, target.value.id, pid, tid);
      }
    }

    /** `doDelete`: the target leaves the list only after the delete
      * request succeeds. */
    method DoDelete(target: Option<Image>, succeeded: bool) returns (sent: Option<string>)
      modifies this
      ensures sent.None? <==> target.None?
      ensures sent.Some? ==> sent.value == target.value.id
      ensures images == if sent.Some? && succeeded then RemoveById(old(images), target.value.id) else old(images)
    {
      if target.None? {
        return None;
      }
      sent := Some(target.value.id);
      if succeeded {
        images := RemoveById(images, target.value.id);
      }
    }
  }

}
