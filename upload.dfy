/** `uploadPendingAttachments`: uploads the queued files one after the
  * other, marking each entry as it goes, and returns what was stored. The
  * upload request of each entry is an input (its outcome). */
module Upload {
  import opened Wrappers
  import opened Attachments

  /** What the chat request carries for an uploaded file. */
  datatype Attachment = Attachment(url: string, name: string, size: nat, mime: string, kind: Kind)

  /** The outcome of one upload request: stored under a URL, answered with a
    * non-ok status and a body text, or failed with a thrown error. */
  datatype UploadOutcome = Stored(url: string) | Rejected(body: string) | Threw(message: string)

  /** `e?.message || String(e)` for the `Error` the loop catches: an empty
    * message gives `String(e)`, which is "Error". */
  function ErrorText(o: UploadOutcome): (t: string)
    requires !o.Stored?
    ensures t != ""
    ensures o.Rejected? && o.body != "" ==> t == o.body
    ensures o.Threw? && o.message != "" ==> t == o.message
  {
    var m := if o.Rejected? then o.body else o.message;
    if m == "" then "Error" else m
  }

  /** The entry after its turn in the loop: marked uploading, then done
    * with the URL or failed with the error text. */
  function Finished(p: PendingAttachment, o: UploadOutcome): (q: PendingAttachment)
    ensures q.id == p.id
    ensures q.status == (if o.Stored? then Status.Done else Failed)
    ensures o.Stored? ==> q.uploadedUrl == Some(o.url) && q.error == p.error
    ensures !o.Stored? ==> q.error == Some(ErrorText(o)) && q.uploadedUrl == p.uploadedUrl
  {
    Apply(Apply(p, ToUploading), if o.Stored? then ToDone(o.url) else ToError(ErrorText(o)))
  }

  function AttachmentOf(p: PendingAttachment, url: string): Attachment
  {
    Attachment(url, p.name, p.size, p.mime, p.kind)
  }

  /** The successful uploads, in queue order. */
  function Successes(ps: seq<PendingAttachment>, outcomes: seq<UploadOutcome>): (r: seq<Attachment>)
    requires |outcomes| == |ps|
    ensures |r| <= |ps|
    ensures forall a :: a in r ==> exists i :: 0 <= i < |ps| && outcomes[i].Stored? && a == AttachmentOf(ps[i], outcomes[i].url)
    ensures (forall i :: 0 <= i < |ps| ==> !outcomes[i].Stored?) ==> r == []
  {
    if ps == [] then []
    else
      var n := |ps| - 1;
      var rest := Successes(ps[..n], outcomes[..n]);
      rest + (if outcomes[n].Stored? then [AttachmentOf(ps[n], outcomes[n].url)] else [])
  }

  /** Every stored upload is among the results, whatever the others did. */
  lemma {:induction false} SuccessesHas(ps: seq<PendingAttachment>, outcomes: seq<UploadOutcome>, i: nat)
    requires |outcomes| == |ps| && i < |ps| && outcomes[i].Stored?
    ensures AttachmentOf(ps[i], outcomes[i].url) in Successes(ps, outcomes)
  {
    var n := |ps| - 1;
    if i < n {
      SuccessesHas(ps[..n], outcomes[..n], i);
    }
  }

  /** One more entry in the queue adds its attachment at the end exactly
    * when its upload stored it, so the results follow queue order. */
  lemma SuccessesSnoc(ps: seq<PendingAttachment>, outcomes: seq<UploadOutcome>, p: PendingAttachment, o: UploadOutcome)
    requires |outcomes| == |ps|
    ensures Successes(ps + [p], outcomes + [o])
         == Successes(ps, outcomes) + (if o.Stored? then [AttachmentOf(p, o.url)] else [])
  {
    assert (ps + [p])[..|ps|] == ps;
    assert (outcomes + [o])[..|ps|] == outcomes;
  }

  /** When every upload succeeds, the result has one attachment per entry,
    * in queue order. */
  lemma {:induction false} AllStored(ps: seq<PendingAttachment>, outcomes: seq<UploadOutcome>)
    requires |outcomes| == |ps|
    requires forall i :: 0 <= i < |ps| ==> outcomes[i].Stored?
    ensures |Successes(ps, outcomes)| == |ps|
    ensures forall i :: 0 <= i < |ps| ==> Successes(ps, outcomes)[i] == AttachmentOf(ps[i], outcomes[i].url)
  {
    if ps != [] {
      var n := |ps| - 1;
      AllStored(ps[..n], outcomes[..n]);
      var rest := Successes(ps[..n], outcomes[..n]);
      assert Successes(ps, outcomes) == rest + [AttachmentOf(ps[n], outcomes[n].url)];
      forall i | 0 <= i < n
        ensures Successes(ps, outcomes)[i] == AttachmentOf(ps[i], outcomes[i].url)
      {
        assert ps[..n][i] == ps[i] && outcomes[..n][i] == outcomes[i];
      }
    }
  }

  /** The queue after the first `i` entries have had their turn. */
  function Progress(ps: seq<PendingAttachment>, outcomes: seq<UploadOutcome>, i: nat): (r: seq<PendingAttachment>)
    requires |outcomes| == |ps| && i <= |ps|
    ensures |r| == |ps|
    ensures forall k :: 0 <= k < |ps| ==> r[k] == if k < i then Finished(ps[k], outcomes[k]) else ps[k]
  {
    seq(|ps|, k requires 0 <= k < |ps| => if k < i then Finished(ps[k], outcomes[k]) else ps[k])
  }

  /** One turn of the loop on the entry at index `i`: `markUploading`,
    * then `markDone` or `markError`. */
  method Process(queue: Queue, i: nat, o: UploadOutcome)
    requires queue.Valid() && i < |queue.pending|
    modifies queue
    ensures queue.pending == old(queue.pending)[i := Finished(old(queue.pending)[i], o)]
    ensures queue.Valid()
  {
    var id := queue.pending[i].id;
    MarkOnlyTarget(queue.pending, i, ToUploading);
    queue.MarkUploading(id);
    var mark := if o.Stored? then ToDone(o.url) else ToError(ErrorText(o));
    MarkOnlyTarget(queue.pending, i, mark);
    if o.Stored? {
      queue.MarkDone(id, o.url);
    } else {
      queue.MarkError(id, ErrorText(o));
    }
  }

  /** Processes the queue as it was when the call began, in order; a
    * failed entry does not stop the loop. */
  method UploadPendingAttachments(queue: Queue, outcomes: seq<UploadOutcome>) returns (results: seq<Attachment>)
    requires queue.Valid() && |outcomes| == |queue.pending|
    modifies queue
    ensures results == Successes(old(queue.pending), outcomes)
    ensures queue.pending == Progress(old(queue.pending), outcomes, |outcomes|)
    ensures queue.Valid()
  {
    var pending := queue.pending;
    results := [];
    var i := 0;
    while i < |pending|
      invariant 0 <= i <= |pending|
      invariant queue.Valid()
      invariant queue.pending == Progress(pending, outcomes, i)
      invariant results == Successes(pending[..i], outcomes[..i])
    {
      var p := pending[i];
      var o := outcomes[i];
      Process(queue, i, o);
      assert pending[..i + 1][..i] == pending[..i];
      assert outcomes[..i + 1][..i] == outcomes[..i];
      if o.Stored? {
        results := results + [AttachmentOf(p, o.url)];
      }
      i := i + 1;
    }
    assert pending[..i] == pending && outcomes[..i] == outcomes;
  }
}
