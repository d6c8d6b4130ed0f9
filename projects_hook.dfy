/** The projects hook of the web client (`useProjects(currentUserId)`):
  * loads the user's projects into the shared store and creates, edits and
  * deletes projects optimistically. Remote calls are inputs, as in the
  * threads hook. */
module ProjectsHook {
  import opened Wrappers
  import opened EntityStore
  import opened Optimistic
  import ChatStore

  /** A JSON field that may be absent, `null`, or a string. */
  datatype Nullable = Missing | Null | Present(value: string)

  /** A project as the server sends it: `overview` may be `null`. */
  datatype ProjectRow = ProjectRow(id: Id, name: string, userId: Id, overview: Nullable,
                                   createdAt: string, updatedAt: string)

  /** What `normalizeProject(undefined)` yields: an object whose only key
    * is `overview` (undefined). Its missing string fields are written ""
    * here, and its id as "undefined", the key `String(p.id)` gives it. */
  const FieldlessProject: Project := Project("undefined", "", "", None, "", "")

  /** `normalizeProject`: a null or missing overview becomes undefined,
    * every other field is kept. */
  function NormalizeProject(p: Option<ProjectRow>): (r: Project)
    ensures p.None? ==> r == FieldlessProject
    ensures p.Some? ==>
      && r.id == p.value.id && r.name == p.value.name && r.userId == p.value.userId
      && r.createdAt == p.value.createdAt && r.updatedAt == p.value.updatedAt
      && (r.overview.None? <==> !p.value.overview.Present?)
      && (p.value.overview.Present? ==> r.overview == Some(p.value.overview.value))
  {
    match p
    case None => FieldlessProject
    case Some(row) =>
      Project(row.id, row.name, row.userId,
              if row.overview.Present? then Some(row.overview.value) else None,
              row.createdAt, row.updatedAt)
  }

  function ProjectKey(p: Project): Id
  {
    p.id
  }

  /** `rows.map(normalizeProject)` after `Array.isArray(data) ? data : [data]`. */
  function NormalizedRows(w: Wire<ProjectRow>): (r: seq<Project>)
    ensures w.Nothing? ==> r == [FieldlessProject]
    ensures w.Single? ==> r == [NormalizeProject(Some(w.record))]
    ensures w.Rows? ==> |r| == |w.rows| && forall i :: 0 <= i < |r| ==> r[i] == NormalizeProject(Some(w.rows[i]))
  {
    match w
    case Nothing => [FieldlessProject]
    case Single(x) => [NormalizeProject(Some(x))]
    case Rows(xs) => seq(|xs|, i requires 0 <= i < |xs| => NormalizeProject(Some(xs[i])))
  }

  /** `setProjectsIntoStore(rows)`: `projectsById` is replaced by the rows
    * (not merged) and the user's id list by their ids, in order. */
  function SetProjectsIntoStore(s: Tables, userId: Id, rows: seq<Project>): (r: Tables)
    ensures r.projectsById.Keys == Elems(KeysOf(rows, ProjectKey))
    ensures Lookup(r.projectIdsByUserId, userId) == KeysOf(rows, ProjectKey)
    ensures forall u :: u != userId ==> Lookup(r.projectIdsByUserId, u) == Lookup(s.projectIdsByUserId, u)
    ensures r.(projectsById := s.projectsById, projectIdsByUserId := s.projectIdsByUserId) == s
  {
    s.(projectsById := FromRows(rows, ProjectKey),
       projectIdsByUserId := s.projectIdsByUserId[userId := KeysOf(rows, ProjectKey)])
  }

  /** A refetch drops every project the listing does not contain, even
    * one another user's list still names, and the user's projects are
    * then exactly the fetched rows, in order. */
  lemma RefetchReplacesProjects(s: Tables, userId: Id, rows: seq<Project>, k: Id)
    requires NoDup(KeysOf(rows, ProjectKey))
    ensures k !in KeysOf(rows, ProjectKey) ==> k !in SetProjectsIntoStore(s, userId, rows).projectsById
    ensures GetProjectByUserId(SetProjectsIntoStore(s, userId, rows), userId) == rows
  {
    UpsertThenResolve(map[], rows, ProjectKey);
  }

  /** The store after `refetch()`, which always runs. */
  function Refetched(s: Tables, userId: Id, listed: Remote<Wire<ProjectRow>>): (r: Tables)
    ensures listed.Fail? ==> r == s
    ensures listed.Ok? ==> r == SetProjectsIntoStore(s, userId, NormalizedRows(listed.value))
  {
    match listed
    case Fail(_) => s
    case Ok(w) => SetProjectsIntoStore(s, userId, NormalizedRows(w))
  }

  /** The optimistic step of `addProject`: the record is stored and its id
    * goes to the head of the user's list; the selection is not touched. */
  function InsertProject(s: Tables, userId: Id, p: Project): (r: Tables)
    ensures r.projectsById == s.projectsById[p.id := p]
    ensures Lookup(r.projectIdsByUserId, userId) == [p.id] + Lookup(s.projectIdsByUserId, userId)
    ensures forall u :: u != userId ==> Lookup(r.projectIdsByUserId, u) == Lookup(s.projectIdsByUserId, u)
    ensures r.selectedProjectId == s.selectedProjectId && r.selectedThreadId == s.selectedThreadId
    ensures r.(projectsById := s.projectsById, projectIdsByUserId := s.projectIdsByUserId) == s
  {
    s.(projectsById := s.projectsById[p.id := p],
       projectIdsByUserId := s.projectIdsByUserId[userId := [p.id] + Lookup(s.projectIdsByUserId, userId)])
  }

  /** The repair step of `addProject`: the server's record replaces the
    * temporary one, in the same list position. */
  function SwapProject(s: Tables, userId: Id, tmpId: Id, created: Project): (r: Tables)
    ensures tmpId != created.id ==> tmpId !in r.projectsById
    ensures created.id in r.projectsById && r.projectsById[created.id] == created
    ensures var before := Lookup(s.projectIdsByUserId, userId);
      var after := Lookup(r.projectIdsByUserId, userId);
      && |after| == |before|
      && forall i :: 0 <= i < |before| ==> after[i] == (if before[i] == tmpId then created.id else before[i])
    ensures r.selectedProjectId == s.selectedProjectId && r.selectedThreadId == s.selectedThreadId
  {
    s.(projectsById := (s.projectsById - {tmpId})[created.id := created],
       projectIdsByUserId := s.projectIdsByUserId[userId := ReplaceId(Lookup(s.projectIdsByUserId, userId), tmpId, created.id)])
  }

  /** A fresh temporary record followed by a successful create leaves the
    * store as if the server's record had been inserted directly. */
  lemma AddProjectNetEffect(s: Tables, userId: Id, optimistic: Project, created: Project)
    requires optimistic.id !in s.projectsById
    requires optimistic.id !in Lookup(s.projectIdsByUserId, userId)
    ensures SwapProject(InsertProject(s, userId, optimistic), userId, optimistic.id, created) == InsertProject(s, userId, created)
  {
    var tmp := optimistic.id;
    var l := Lookup(s.projectIdsByUserId, userId);
    ReplaceAbsent(l, tmp, created.id);
    assert ReplaceId([tmp] + l, tmp, created.id) == [created.id] + l by {
      assert ([tmp] + l)[1..] == l;
    }
    assert (s.projectsById[tmp := optimistic] - {tmp})[created.id := created] == s.projectsById[created.id := created];
  }

  /** A partial update: a field is replaced only when the patch carries it. */
  datatype ProjectPatch = ProjectPatch(name: Option<string>, overview: Option<Option<string>>)

  /** `{ ...prev, ...patch, updated_at: now }`. */
  function ApplyPatch(prev: Project, patch: ProjectPatch, now: string): (r: Project)
    ensures r.id == prev.id && r.userId == prev.userId && r.createdAt == prev.createdAt
    ensures r.name == (if patch.name.Some? then patch.name.value else prev.name)
    ensures r.overview == (if patch.overview.Some? then patch.overview.value else prev.overview)
    ensures r.updatedAt == now
  {
    prev.(name := patch.name.GetOr(prev.name), overview := patch.overview.GetOr(prev.overview), updatedAt := now)
  }

  /** The optimistic step of `removeProject`: only the record and its id
    * in the current user's list go; threads, messages and the selection
    * stay. */
  function RemoveProjectLocally(s: Tables, userId: Id, projectId: Id): (r: Tables)
    ensures projectId !in r.projectsById
    ensures forall k :: k in s.projectsById && k != projectId ==> k in r.projectsById && r.projectsById[k] == s.projectsById[k]
    ensures Lookup(r.projectIdsByUserId, userId) == RemoveId(Lookup(s.projectIdsByUserId, userId), projectId)
    ensures forall u :: u != userId ==> Lookup(r.projectIdsByUserId, u) == Lookup(s.projectIdsByUserId, u)
    ensures r.(projectsById := s.projectsById, projectIdsByUserId := s.projectIdsByUserId) == s
  {
    s.(projectsById := s.projectsById - {projectId},
       projectIdsByUserId := s.projectIdsByUserId[userId := RemoveId(Lookup(s.projectIdsByUserId, userId), projectId)])
  }

  /** Unlike the store's `deleteProject`, the hook's optimistic removal
    * leaves the project's threads in place. */
  lemma RemoveProjectDoesNotCascade(s: Tables, userId: Id, projectId: Id, t: Id)
    requires projectId in s.projectsById
    requires t in Lookup(s.threadIdsByProjectId, projectId) && t in s.threadsById
    ensures t in RemoveProjectLocally(s, userId, projectId).threadsById
    ensures t !in DeleteProject(s, projectId).threadsById
  {
  }

  class Hook {
    const store: ChatStore.Store
    const currentUserId: Id
    var loading: bool
    var error: Option<string>

    constructor (store: ChatStore.Store, currentUserId: Id)
      ensures this.store == store && this.currentUserId == currentUserId
      ensures !loading && error.None?
    {
      this.store := store;
      this.currentUserId := currentUserId;
      loading := false;
      error := None;
    }

    /** `refetch()`: replaces the user's projects; a failure is recorded,
      * never thrown. */
    method Refetch(listed: Remote<Wire<ProjectRow>>)
      modifies this, store
      ensures store.Snapshot() == Refetched(old(store.Snapshot()), currentUserId, listed)
      ensures !loading
      ensures error == (if listed.Fail? then Some(listed.message) else None)
    {
      loading := true;
      error := None;
      match listed {
        case Fail(m) =>
          error := Some(m);
        case Ok(w) =>
          store.SetState(SetProjectsIntoStore(store.Snapshot(), currentUserId, NormalizedRows(w)));
      }
      loading := false;
    }

    /** `addProject(name, overview)`: success stores the normalized server
      * record in the temporary one's place; failure puts the whole
      * snapshot back and rethrows. */
    method AddProject(name: string, overview: Option<string>, uuid: string, now: string,
                      created: Remote<Wire<ProjectRow>>)
      returns (r: Remote<Project>)
      requires "tmp-" + uuid !in store.projectsById
      requires "tmp-" + uuid !in Lookup(store.projectIdsByUserId, currentUserId)
      modifies this, store
      ensures created.Ok? ==>
        var c := NormalizeProject(AsOne(created.value));
        r == Ok(c) && store.Snapshot() == InsertProject(old(store.Snapshot()), currentUserId, c) && error == old(error)
      ensures created.Fail? ==>
        r == Fail(created.message) && store.Snapshot() == old(store.Snapshot()) && error == Some(created.message)
      ensures loading == old(loading)
    {
      var tmpId := "tmp-" + uuid;
      var optimistic := Project(tmpId, name, currentUserId, overview, now, now);
      var prevState := store.Snapshot();
      store.SetState(InsertProject(store.Snapshot(), currentUserId, optimistic));
      match created {
        case Fail(m) =>
          store.SetState(prevState);
          error := Some(m);
          return Fail(m);
        case Ok(w) =>
          var c := NormalizeProject(AsOne(w));
          AddProjectNetEffect(prevState, currentUserId, optimistic, c);
          store.SetState(SwapProject(store.Snapshot(), currentUserId, tmpId, c));
          return Ok(c);
      }
    }

    /** `editProject(projectId, patch)`: nothing happens for an unknown
      * project; otherwise the patched record is shown at once, then the
      * server's record replaces it, or the prior record comes back (which
      * restores the store) and the error is rethrown. */
    method EditProject(projectId: Id, patch: ProjectPatch, now: string, updated: Remote<Wire<ProjectRow>>)
      returns (r: Remote<Option<Project>>)
      modifies this, store
      ensures projectId !in old(store.projectsById) ==>
        r == Ok(None) && store.Snapshot() == old(store.Snapshot()) && error == old(error)
      ensures projectId in old(store.projectsById) && updated.Ok? ==>
        var s := old(store.Snapshot());
        var u := NormalizeProject(AsOne(updated.value));
        r == Ok(Some(u)) && store.Snapshot() == s.(projectsById := s.projectsById[projectId := u]) && error == old(error)
      ensures projectId in old(store.projectsById) && updated.Fail? ==>
        r == Fail(updated.message) && store.Snapshot() == old(store.Snapshot()) && error == Some(updated.message)
      ensures loading == old(loading)
    {
      if projectId !in store.projectsById {
        return Ok(None);
      }
      var prev := store.projectsById[projectId];
      store.projectsById := store.projectsById[projectId := ApplyPatch(prev, patch, now)];
      match updated {
        case Fail(m) =>
          store.projectsById := store.projectsById[projectId := prev];
          assert store.projectsById == old(store.projectsById);
          error := Some(m);
          return Fail(m);
        case Ok(w) =>
          var u := NormalizeProject(AsOne(w));
          store.projectsById := store.projectsById[projectId := u];
          assert store.projectsById == old(store.projectsById)[projectId := u];
          return Ok(Some(u));
      }
    }

    /** `removeProject(projectId)`: removes the record locally, deletes it
      * remotely and refetches. A benign error counts as success; any other
      * error puts the whole snapshot back and rethrows. */
    method RemoveProject(projectId: Id, deleteError: Option<string>, listed: Remote<Wire<ProjectRow>>)
      returns (r: Remote<bool>)
      modifies this, store
      ensures deleteError.None? || IsBenignDeleteError(deleteError.value) ==>
        && r == Ok(true)
        && store.Snapshot() == Refetched(RemoveProjectLocally(old(store.Snapshot()), currentUserId, projectId), currentUserId, listed)
        && error == (if listed.Fail? then Some(listed.message) else None)
      ensures deleteError.Some? && !IsBenignDeleteError(deleteError.value) ==>
        && r == Fail(deleteError.value)
        && store.Snapshot() == old(store.Snapshot())
        && error == Some(deleteError.value)
    {
      var prevState := store.Snapshot();
      store.SetState(RemoveProjectLocally(store.Snapshot(), currentUserId, projectId));
      Refetch(listed);
      if deleteError.None? || IsBenignDeleteError(deleteError.value) {
        return Ok(true);
      }
      store.SetState(prevState);
      error := deleteError;
      return Fail(deleteError.value);
    }
  }
}
