/** The attachment queue of the web client: a bounded list of files chosen
  * for the next message, each with an upload status. */
module Attachments {
  import opened Wrappers
  import opened Text

  const MAX_FILES: nat := 10
  const MAX_MB: nat := 25
  const MAX_BYTES: nat := MAX_MB * 1024 * 1024

  datatype Kind = ImageKind | FileKind

  datatype Status = Pending | Uploading | Done | Failed

  /** A browser `File`: its name, byte size and (possibly empty) type. */
  datatype LocalFile = LocalFile(name: string, size: nat, mimeType: string)

  datatype PendingAttachment = PendingAttachment(
    id: string, file: LocalFile, name: string, size: nat, mime: string, kind: Kind,
    previewUrl: string, status: Status, uploadedUrl: Option<string>, error: Option<string>)

  /** `toKind`: an image exactly when the type starts with "image/". */
  function ToKind(m: string): (k: Kind)
    ensures k == ImageKind <==> StartsWith(m, "image/")
  {
    if StartsWith(m, "image/") then ImageKind else FileKind
  }

  /** `Math.max(0, MAX_FILES - cur.length)`. */
  function Room(count: nat): (r: nat)
    ensures count + r <= if count > MAX_FILES then count else MAX_FILES
    ensures count <= MAX_FILES ==> count + r == MAX_FILES
  {
    if count >= MAX_FILES then 0 else MAX_FILES - count
  }

  /** `filter((f) => f.size <= MAX_MB * 1024 * 1024)`. */
  function SmallEnough(files: seq<LocalFile>): (r: seq<LocalFile>)
    ensures |r| <= |files|
    ensures forall i :: 0 <= i < |r| ==> r[i].size <= MAX_BYTES && r[i] in files
    ensures forall f :: f in files && f.size <= MAX_BYTES ==> f in r
  {
    if files == [] then []
    else (if files[0].size <= MAX_BYTES then [files[0]] else []) + SmallEnough(files[1..])
  }

  /** Filtering works file by file, so the kept files keep their order and
    * multiplicity. */
  lemma {:induction false} SmallEnoughConcat(a: seq<LocalFile>, b: seq<LocalFile>)
    ensures SmallEnough(a + b) == SmallEnough(a) + SmallEnough(b)
  {
    if a == [] {
      assert a + b == b;
    } else {
      assert (a + b)[0] == a[0];
      assert (a + b)[1..] == a[1..] + b;
      SmallEnoughConcat(a[1..], b);
    }
  }

  function Min(a: nat, b: nat): nat
  {
    if a <= b then a else b
  }

  /** The files `addFiles` keeps: the first `room` of them, then only those
    * within the size limit. An oversized file still takes up its place in
    * the cut. */
  function Picked(count: nat, files: seq<LocalFile>): (r: seq<LocalFile>)
    ensures |r| <= Room(count)
    ensures forall f :: f in r <==> f in files[..Min(|files|, Room(count))] && f.size <= MAX_BYTES
  {
    var cut := if |files| <= Room(count) then files else files[..Room(count)];
    assert cut == files[..Min(|files|, Room(count))];
    SmallEnough(cut)
  }

  /** The kept files of a longer pick extend those of a shorter one, so
    * `Picked` keeps the files in the order they were chosen. */
  lemma PickedSnoc(count: nat, files: seq<LocalFile>, f: LocalFile)
    requires |files| < Room(count)
    ensures Picked(count, files + [f]) == Picked(count, files) + (if f.size <= MAX_BYTES then [f] else [])
  {
    assert Picked(count, files + [f]) == SmallEnough(files + [f]);
    assert Picked(count, files) == SmallEnough(files);
    SmallEnoughConcat(files, [f]);
    assert [f][1..] == [];
  }

  /** The entry `addFiles` makes for a file. */
  function Entry(f: LocalFile, id: string, previewUrl: string): (p: PendingAttachment)
    ensures p.status == Pending && p.uploadedUrl.None? && p.error.None?
    ensures p.mime == (if f.mimeType == "" then "application/octet-stream" else f.mimeType)
    ensures p.kind == ImageKind <==> StartsWith(f.mimeType, "image/")
    ensures p.id == id && p.name == f.name && p.size == f.size
  {
    PendingAttachment(id, f, f.name, f.size,
                      if f.mimeType == "" then "application/octet-stream" else f.mimeType,
                      ToKind(f.mimeType), previewUrl, Pending, None, None)
  }

  /** The new entries, the i-th with the i-th fresh id and preview URL. */
  function Entries(files: seq<LocalFile>, ids: nat -> string, previewUrls: nat -> string): (r: seq<PendingAttachment>)
    ensures |r| == |files|
    ensures forall i :: 0 <= i < |files| ==> r[i] == Entry(files[i], ids(i), previewUrls(i))
  {
    seq(|files|, i requires 0 <= i < |files| => Entry(files[i], ids(i), previewUrls(i)))
  }

  /** `addFiles` never takes the queue past 10 entries, and keeps it where
    * it was when it was already full. */
  lemma AddFilesBound(pending: seq<PendingAttachment>, files: seq<LocalFile>)
    ensures |pending| <= MAX_FILES ==> |pending| + |Picked(|pending|, files)| <= MAX_FILES
    ensures |pending| >= MAX_FILES ==> Picked(|pending|, files) == []
  {
  }

  /** One slot left and an oversized first file: nothing is added, even
    * when a small file follows. */
  lemma OversizedFileUsesSlot(big: LocalFile, small: LocalFile)
    requires big.size > MAX_BYTES && small.size <= MAX_BYTES
    ensures Picked(MAX_FILES - 1, [big, small]) == []
  {
    assert [big, small][..1] == [big];
  }

  /** Every file within the room and the size limit is kept. */
  lemma PickedKeepsSmallFiles(count: nat, files: seq<LocalFile>, i: nat)
    requires i < |files| && i < Room(count) && files[i].size <= MAX_BYTES
    ensures files[i] in Picked(count, files)
  {
    var cut := if |files| <= Room(count) then files else files[..Room(count)];
    assert files[i] == cut[i];
  }

  /** `filter((p) => p.id !== id)`. */
  function Without(ps: seq<PendingAttachment>, id: string): (r: seq<PendingAttachment>)
    ensures |r| <= |ps|
    ensures forall p :: p in r ==> p in ps && p.id != id
    ensures forall p :: p in ps && p.id != id ==> p in r
  {
    if ps == [] then []
    else (if ps[0].id != id then [ps[0]] else []) + Without(ps[1..], id)
  }

  /** One step of the filter. */
  lemma WithoutCons(ps: seq<PendingAttachment>, id: string)
    requires ps != []
    ensures Without(ps, id) == (if ps[0].id != id then [ps[0]] else []) + Without(ps[1..], id)
  {
  }

  /** Removing keeps the others in their order: it distributes over
    * concatenation. */
  lemma {:induction false} WithoutConcat(a: seq<PendingAttachment>, b: seq<PendingAttachment>, id: string)
    ensures Without(a + b, id) == Without(a, id) + Without(b, id)
  {
    if a == [] {
      assert a + b == b;
    } else {
      var head := if a[0].id != id then [a[0]] else [];
      assert (a + b)[0] == a[0] && (a + b)[1..] == a[1..] + b;
      calc {
        Without(a + b, id);
        == { WithoutCons(a + b, id); }
        head + Without(a[1..] + b, id);
        == { WithoutConcat(a[1..], b, id); }
        head + (Without(a[1..], id) + Without(b, id));
        ==
        (head + Without(a[1..], id)) + Without(b, id);
        == { WithoutCons(a, id); }
        Without(a, id) + Without(b, id);
      }
    }
  }

  lemma {:induction false} WithoutDistinct(ps: seq<PendingAttachment>, id: string)
    requires DistinctIds(ps)
    ensures DistinctIds(Without(ps, id))
  {
    if ps != [] {
      WithoutDistinct(ps[1..], id);
      var rest := Without(ps[1..], id);
      assert forall p :: p in rest ==> p.id != ps[0].id;
    }
  }

  /** The three status changes: `markUploading`, `markDone(url)` (which
    * also records the URL) and `markError(error)` (which also records the
    * message). */
  datatype Mark = ToUploading | ToDone(url: string) | ToError(message: string)

  function Apply(p: PendingAttachment, mark: Mark): (q: PendingAttachment)
    ensures q.id == p.id
  {
    match mark
    case ToUploading => p.(status := Uploading)
    case ToDone(url) => p.(status := Status.Done, uploadedUrl := Some(url))
    case ToError(e) => p.(status := Failed, error := Some(e))
  }

  /** `pending.map((p) => p.id === id ? { ...p, ... } : p)`. */
  function UpdateWhere(ps: seq<PendingAttachment>, id: string, mark: Mark): (r: seq<PendingAttachment>)
    ensures |r| == |ps|
    ensures forall i :: 0 <= i < |ps| ==> r[i] == (if ps[i].id == id then Apply(ps[i], mark) else ps[i])
  {
    seq(|ps|, i requires 0 <= i < |ps| => if ps[i].id == id then Apply(ps[i], mark) else ps[i])
  }

  function Ids(ps: seq<PendingAttachment>): (r: seq<string>)
    ensures |r| == |ps| && forall i :: 0 <= i < |ps| ==> r[i] == ps[i].id
  {
    seq(|ps|, i requires 0 <= i < |ps| => ps[i].id)
  }

  predicate DistinctIds(ps: seq<PendingAttachment>)
  {
    forall i, j :: 0 <= i < j < |ps| ==> ps[i].id != ps[j].id
  }

  /** A mark keeps every id and position, and touches only the entry with
    * the given id: with distinct ids, exactly the one at its index. */
  lemma MarkOnlyTarget(ps: seq<PendingAttachment>, i: nat, mark: Mark)
    requires i < |ps| && DistinctIds(ps)
    ensures UpdateWhere(ps, ps[i].id, mark) == ps[i := Apply(ps[i], mark)]
    ensures Ids(UpdateWhere(ps, ps[i].id, mark)) == Ids(ps)
  {
  }

  /** The queue (`useAttachmentStore`). */
  class Queue {
    var pending: seq<PendingAttachment>

    /** At most 10 entries, each with its own id. */
    ghost predicate Valid()
      reads this
    {
      |pending| <= MAX_FILES && DistinctIds(pending)
    }

    constructor ()
      ensures pending == [] && Valid()
    {
      pending := [];
    }

    /** `addFiles(files)`: the picked files are appended, each with a fresh
      * id and preview URL. */
    method AddFiles(files: seq<LocalFile>, ids: nat -> string, previewUrls: nat -> string)
      requires Valid()
      requires forall i, j :: 0 <= i < j ==> ids(i) != ids(j)
      requires forall i, k :: 0 <= i && 0 <= k < |pending| ==> ids(i) != pending[k].id
      modifies this
      ensures pending == old(pending) + Entries(Picked(|old(pending)|, files), ids, previewUrls)
      ensures Valid()
    {
      var picked := Picked(|pending|, files);
      AddFilesBound(pending, files);
      var next := Entries(picked, ids, previewUrls);
      pending := pending + next;
    }

    /** `remove(id)`. */
    method Remove(id: string)
      requires Valid()
      modifies this
      ensures pending == Without(old(pending), id)
      ensures Valid()
    {
      WithoutDistinct(pending, id);
      pending := Without(pending, id);
    }

    /** `clearAll()`; revoking the preview URLs is left to the browser. */
    method ClearAll()
      modifies this
      ensures pending == [] && Valid()
    {
      pending := [];
    }

    method MarkUploading(id: string)
      requires Valid()
      modifies this
      ensures pending == UpdateWhere(old(pending), id, ToUploading)
      ensures Valid()
    {
      pending := UpdateWhere(pending, id, ToUploading);
      assert Ids(pending) == Ids(old(pending));
    }

    method MarkDone(id: string, url: string)
      requires Valid()
      modifies this
      ensures pending == UpdateWhere(old(pending), id, ToDone(url))
      ensures Valid()
    {
      pending := UpdateWhere(pending, id, ToDone(url));
      assert Ids(pending) == Ids(old(pending));
    }

    method MarkError(id: string, error: string)
      requires Valid()
      modifies this
      ensures pending == UpdateWhere(old(pending), id, ToError(error))
      ensures Valid()
    {
      pending := UpdateWhere(pending, id, ToError(error));
      assert Ids(pending) == Ids(old(pending));
    }
  }
}
