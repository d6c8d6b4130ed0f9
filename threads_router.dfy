/** The thread endpoints of the backend (`routers/threads.py`): the query
  * that lists a project's threads, the body and answer of thread creation,
  * renaming, and the idempotent delete. Database calls are inputs. */
module ThreadsRouter {
  import opened Wrappers
  import opened Text
  import opened PostgrestCalls
  import FilesRouter

  /** The name a thread gets when the requested one is blank ("new chat"). */
  const DefaultThreadName: string := "新しいチャット"

  /** The query of `list_threads`: one project's threads, oldest first. */
  function ListThreadsQuery(projectId: string): (q: seq<(string, string)>)
    ensures FilesRouter.DictGet(q, "project_id") == Some("eq." + projectId)
    ensures FilesRouter.DictGet(q, "order") == Some("created_at.asc")
    ensures FilesRouter.DictGet(q, "select") == Some("id,name,project_id,created_at,updated_at")
    ensures forall i, j :: 0 <= i < j < |q| ==> q[i].0 != q[j].0
  {
    var q := [("select", "id,name,project_id,created_at,updated_at"), ("project_id", "eq." + projectId),
              ("order", "created_at.asc")];
    FilesRouter.DictGetDistinct(q, 0);
    FilesRouter.DictGetDistinct(q, 1);
    FilesRouter.DictGetDistinct(q, 2);
    q
  }

  /** `list_threads` after the call: the rows, or 400 with the error text. */
  function ListThreads<T>(call: Call<T>): (r: Reply<T>)
    ensures call.Returned? ==> r == Done(call.value)
    ensures !call.Returned? ==> r == Raise(HttpError(400, "list_threads failed: " + ErrorText(call)))
  {
    if call.Returned? then Done(call.value) else Raise(HttpError(400, "list_threads failed: " + ErrorText(call)))
  }

  /** The stripped name, or the default name when that is blank. */
  function ThreadName(name: string): (n: string)
    ensures n != ""
    ensures PyStrip(name) != "" ==> n == PyStrip(name)
    ensures PyStrip(name) == "" ==> n == DefaultThreadName
  {
    if PyStrip(name) != "" then PyStrip(name) else DefaultThreadName
  }

  /** A thread name is already stripped, so naming a thread by its own name
    * keeps it. */
  lemma ThreadNameIdempotent(name: string)
    ensures PyStrip(ThreadName(name)) == ThreadName(name)
    ensures ThreadName(ThreadName(name)) == ThreadName(name)
  {
    if PyStrip(name) != "" {
      TrimIdempotent(name, IsPySpace);
    } else {
      DefaultNameStripped();
    }
  }

  lemma DefaultNameStripped()
    ensures PyStrip(DefaultThreadName) == DefaultThreadName
  {
    assert DefaultThreadName[0] == '新';
    TrimFixed(DefaultThreadName, IsPySpace);
  }

  /** The row `create_thread` inserts. */
  datatype ThreadBody = ThreadBody(id: string, projectId: string, name: string)

  /** The client's id when it sent one, else the fresh UUID `freshId`. */
  function NewThread(id: Option<string>, freshId: string, projectId: string, name: string): (b: ThreadBody)
    ensures Truthy(id) ==> b.id == id.value
    ensures !Truthy(id) ==> b.id == freshId
    ensures b.projectId == projectId && b.name == ThreadName(name) && b.name != ""
  {
    ThreadBody(if Truthy(id) then id.value else freshId, projectId, ThreadName(name))
  }

  /** `create_thread` after the insert: the first returned row, 500 when
    * there is none, the client's `HTTPException` unchanged, and 400 for any
    * other error. */
  function CreateThread<T>(call: Call<Option<seq<T>>>): (r: Reply<T>)
    ensures call.Returned? && FirstRow(call.value).Some? ==> r == Done(call.value.value[0])
    ensures call.Returned? && FirstRow(call.value).None? ==> r == Raise(HttpError(500, "created but row not found"))
    ensures call.HttpRaised? ==> r == Raise(call.error)
    ensures call.Failed? ==> r == Raise(HttpError(400, "create_thread failed: " + call.message))
  {
    match call
    case Returned(rows) =>
      var first := FirstRow(rows);
      if first.Some? then Done(first.value) else Raise(HttpError(500, "created but row not found"))
    case HttpRaised(e) => Raise(e)
    case Failed(m) => Raise(HttpError(400, "create_thread failed: " + m))
  }

  /** `rename_thread` after the update: the first row or nothing; every
    * error, an `HTTPException` included, becomes 400. */
  function RenameThread<T>(call: Call<Option<seq<T>>>): (r: Reply<Option<T>>)
    ensures call.Returned? ==> r == Done(FirstRow(call.value))
    ensures !call.Returned? ==> r == Raise(HttpError(400, "rename_thread failed: " + ErrorText(call)))
  {
    if call.Returned? then Done(FirstRow(call.value))
    else Raise(HttpError(400, "rename_thread failed: " + ErrorText(call)))
  }

  /** `delete_thread` after the delete, `error` being the error text. */
  function DeleteThread(error: Option<string>): (r: Reply<int>)
    ensures r == Done(204) <==> error.None? || IsBenignDeleteError(error.value)
    ensures r != Done(204) ==> r == Raise(HttpError(400, "delete_thread failed: " + error.value))
  {
    DeleteReply(error, "delete_thread failed: ")
  }
}
