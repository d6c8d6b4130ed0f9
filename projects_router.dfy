/** The project endpoints of the backend (`routers/projects.py`): the list
  * query, creation, the partial update and the idempotent delete.
  * Database calls are inputs. */
module ProjectsRouter {
  import opened Wrappers
  import opened PostgrestCalls
  import FilesRouter

  /** The query of `list_projects`: every visible project, newest first. */
  function ListProjectsQuery(): (q: seq<(string, string)>)
    ensures FilesRouter.DictGet(q, "order") == Some("created_at.desc")
    ensures FilesRouter.DictGet(q, "select") == Some("*")
    ensures forall i, j :: 0 <= i < j < |q| ==> q[i].0 != q[j].0
  {
    var q := [("select", "*"), ("order", "created_at.desc")];
    FilesRouter.DictGetDistinct(q, 0);
    FilesRouter.DictGetDistinct(q, 1);
    q
  }

  /** `list_projects` after the call (the detail's spelling is the
    * source's). */
  function ListProjects<T>(call: Call<T>): (r: Reply<T>)
    ensures call.Returned? ==> r == Done(call.value)
    ensures !call.Returned? ==> r == Raise(HttpError(400, "list_priojects failed: " + ErrorText(call)))
  {
    if call.Returned? then Done(call.value) else Raise(HttpError(400, "list_priojects failed: " + ErrorText(call)))
  }

  /** `create_project` after the procedure call: every error, an
    * `HTTPException` included, becomes 400 with its text. */
  function CreateProject<T>(call: Call<T>): (r: Reply<T>)
    ensures call.Returned? ==> r == Done(call.value)
    ensures !call.Returned? ==> r == Raise(HttpError(400, ErrorText(call)))
  {
    if call.Returned? then Done(call.value) else Raise(HttpError(400, ErrorText(call)))
  }

  /** The fields of a project update; `None` means not given (or null). */
  datatype ProjectPatch = ProjectPatch(name: Option<string>, overview: Option<string>)

  /** `payload.model_dump(exclude_none=True)`: the given fields only. */
  function PatchBody(p: ProjectPatch): (body: seq<(string, string)>)
    ensures body == [] <==> p.name.None? && p.overview.None?
    ensures FilesRouter.DictGet(body, "name") == p.name
    ensures FilesRouter.DictGet(body, "overview") == p.overview
  {
    FilesRouter.DictGetPresent([], "name", p.name, "overview");
    FilesRouter.DictGetPresent(FilesRouter.Present("name", p.name), "overview", p.overview, "name");
    FilesRouter.DictGetPresent(FilesRouter.Present("name", p.name), "overview", p.overview, "overview");
    FilesRouter.DictGetPresent([], "name", p.name, "name");
    assert [] + FilesRouter.Present("name", p.name) == FilesRouter.Present("name", p.name);
    FilesRouter.Present("name", p.name) + FilesRouter.Present("overview", p.overview)
  }

  /** `update_project`: an empty patch is refused before any call; then the
    * first updated row, 404 when there is none, the client's
    * `HTTPException` unchanged, and 400 for any other error. */
  function UpdateProject<T>(patch: ProjectPatch, call: Call<Option<seq<T>>>): (r: Reply<T>)
    ensures PatchBody(patch) == [] ==> r == Raise(HttpError(400, "no updatable fields"))
    ensures PatchBody(patch) != [] && call.Returned? && FirstRow(call.value).Some? ==> r == Done(call.value.value[0])
    ensures PatchBody(patch) != [] && call.Returned? && FirstRow(call.value).None?
      ==> r == Raise(HttpError(404, "project not found"))
    ensures PatchBody(patch) != [] && call.HttpRaised? ==> r == Raise(call.error)
    ensures PatchBody(patch) != [] && call.Failed? ==> r == Raise(HttpError(400, "update_project failed: " + call.message))
  {
    if PatchBody(patch) == [] then Raise(HttpError(400, "no updatable fields"))
    else match call
      case Returned(rows) =>
        var first := FirstRow(rows);
        if first.Some? then Done(first.value) else Raise(HttpError(404, "project not found"))
      case HttpRaised(e) => Raise(e)
      case Failed(m) => Raise(HttpError(400, "update_project failed: " + m))
  }

  /** An empty patch does not depend on the database at all. */
  lemma EmptyPatchMakesNoCall<T>(c1: Call<Option<seq<T>>>, c2: Call<Option<seq<T>>>)
    ensures UpdateProject(ProjectPatch(None, None), c1) == UpdateProject(ProjectPatch(None, None), c2)
  {
  }

  /** `delete_project` after the delete, `error` being the error text. */
  function DeleteProject(error: Option<string>): (r: Reply<int>)
    ensures r == Done(204) <==> error.None? || IsBenignDeleteError(error.value)
    ensures r != Done(204) ==> r == Raise(HttpError(400, "delete_project failed: " + error.value))
  {
    DeleteReply(error, "delete_project failed: ")
  }
}
