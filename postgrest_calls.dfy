/** What the thread and project routers share: the outcome of a call to the
  * database's REST layer, the first-row rule and the classification of
  * delete errors. */
module PostgrestCalls {
  import opened Wrappers
  import opened Text

  /** How a database call ended: a value, an `HTTPException` raised by the
    * REST client, or any other exception (by its text). */
  datatype Call<T> = Returned(value: T) | HttpRaised(error: HttpError) | Failed(message: string)

  /** `str(e)` of a failed call; an `HTTPException` renders as
    * "<status>: <detail>". */
  function ErrorText<T>(c: Call<T>): (t: string)
    requires !c.Returned?
    ensures c.Failed? ==> t == c.message
    ensures c.HttpRaised? ==> EndsWith(t, ": " + c.error.detail)
  {
    match c
    case HttpRaised(e) =>
      var t := IntToString(e.status) + ": " + e.detail;
      assert t[|t| - |": " + e.detail|..] == ": " + e.detail;
      t
    case Failed(m) => m
  }

  /** `rows[0] if isinstance(rows, list) and rows else None`, `None` for
    * `rows` standing for an answer that is not a list. */
  function FirstRow<T>(rows: Option<seq<T>>): (r: Option<T>)
    ensures r.Some? <==> rows.Some? && rows.value != []
    ensures r.Some? ==> r.value == rows.value[0]
  {
    if rows.Some? && rows.value != [] then Some(rows.value[0]) else None
  }

  /** The phrases that mark a delete error as "already gone". */
  const BenignPhrases: seq<string> := ["not found", "no row", "already delete", "does not exist"]

  /** The lower-cased error text mentions one of the phrases. */
  predicate IsBenignDeleteError(message: string)
  {
    exists p :: p in BenignPhrases && Contains(Lower(message), p)
  }

  /** `delete_thread` / `delete_project` after the call: 204 when it
    * succeeded or failed with a benign error, else 400 with the error text
    * after `prefix`. */
  function DeleteReply(error: Option<string>, prefix: string): (r: Reply<int>)
    ensures r.Done? <==> error.None? || IsBenignDeleteError(error.value)
    ensures r.Done? ==> r.value == 204
    ensures r.Raise? ==> r.error == HttpError(400, prefix + error.value)
  {
    if error.None? || IsBenignDeleteError(error.value) then Done(204)
    else Raise(HttpError(400, prefix + error.value))
  }

  lemma LowerAppend(a: string, b: string)
    ensures Lower(a + b) == Lower(a) + Lower(b)
  {
    assert forall i :: 0 <= i < |a + b| ==> Lower(a + b)[i] == (Lower(a) + Lower(b))[i];
  }

  /** Every benign phrase, in any case and anywhere in the error text,
    * makes the delete succeed. */
  lemma BenignPhraseAccepted(before: string, phrase: string, after: string, prefix: string)
    requires Lower(phrase) in BenignPhrases
    ensures DeleteReply(Some(before + phrase + after), prefix) == Done(204)
  {
    LowerAppend(before + phrase, after);
    LowerAppend(before, phrase);
    ContainsInfix(Lower(before), Lower(phrase), Lower(after));
    assert Contains(Lower(before + phrase + after), Lower(phrase));
  }
}
