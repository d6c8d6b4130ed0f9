/** The threads hook of the web client (`useThreads(projectId)`): loads the
  * threads of one project into the shared store and creates, renames and
  * deletes threads optimistically, repairing the store from the server's
  * answer. Every remote call is an input of the operation (its result or
  * the message of the error it raised); each operation is a fixed
  * sequence: snapshot, optimistic write, remote result, outcome. */
module ThreadsHook {
  import opened Wrappers
  import opened Text
  import opened EntityStore
  import opened Optimistic
  import ChatStore

  function ThreadKey(t: Thread): Id
  {
    t.id
  }

  /** `setThreadsIntoStore(pid, rows)`: merges the rows into `threadsById`
    * and replaces the project's id list by the rows' ids, in order. */
  function SetThreadsIntoStore(s: Tables, pid: Id, rows: seq<Thread>): (r: Tables)
    ensures Lookup(r.threadIdsByProjectId, pid) == KeysOf(rows, ThreadKey)
    ensures forall q :: q != pid ==> Lookup(r.threadIdsByProjectId, q) == Lookup(s.threadIdsByProjectId, q)
    ensures r.threadsById.Keys == s.threadsById.Keys + Elems(KeysOf(rows, ThreadKey))
    ensures forall k :: k in s.threadsById && k !in KeysOf(rows, ThreadKey) ==> r.threadsById[k] == s.threadsById[k]
    ensures r.(threadsById := s.threadsById, threadIdsByProjectId := s.threadIdsByProjectId) == s
  {
    s.(threadsById := Upsert(s.threadsById, rows, ThreadKey),
       threadIdsByProjectId := s.threadIdsByProjectId[pid := KeysOf(rows, ThreadKey)])
  }

  /** After a refetch the project's threads, as the hook lists them, are
    * exactly the fetched rows in response order. */
  lemma RefetchListsRows(s: Tables, pid: Id, rows: seq<Thread>)
    requires NoDup(KeysOf(rows, ThreadKey))
    ensures GetThreadsByProjectId(SetThreadsIntoStore(s, pid, rows), pid) == rows
  {
    UpsertThenResolve(s.threadsById, rows, ThreadKey);
  }

  /** The store after `refetch()`: nothing happens without a project; a
    * failed listing or an empty body leaves the store as it was. */
  function Refetched(s: Tables, projectId: Option<Id>, listed: Remote<Wire<Thread>>): (r: Tables)
    ensures !Truthy(projectId) || listed.Fail? || listed.value.Nothing? ==> r == s
    ensures Truthy(projectId) && listed.Ok? && listed.value.Single? ==>
      r == SetThreadsIntoStore(s, projectId.value, [listed.value.record])
    ensures Truthy(projectId) && listed.Ok? && listed.value.Rows? ==>
      r == SetThreadsIntoStore(s, projectId.value, listed.value.rows)
  {
    if !Truthy(projectId) then s
    else match listed
      case Fail(_) => s
      case Ok(w) => if w.Nothing? then s else SetThreadsIntoStore(s, projectId.value, RowsOf(w).value)
  }

  /** The error `refetch()` records: the listing's own error, or the
    * TypeError of reading `id` of an empty body. */
  function FetchError(listed: Remote<Wire<Thread>>): (e: Option<string>)
    ensures e.None? <==> listed.Ok? && !listed.value.Nothing?
    ensures listed.Fail? ==> e == Some(listed.message)
  {
    match listed
    case Fail(m) => Some(m)
    case Ok(w) => if w.Nothing? then Some(UndefinedIdError) else None
  }

  /** The optimistic step of `addThread`: the record is stored, its id goes
    * to the head of the project's list and it becomes the selection. */
  function InsertThread(s: Tables, pid: Id, t: Thread): (r: Tables)
    ensures r.threadsById == s.threadsById[t.id := t]
    ensures Lookup(r.threadIdsByProjectId, pid) == [t.id] + Lookup(s.threadIdsByProjectId, pid)
    ensures forall q :: q != pid ==> Lookup(r.threadIdsByProjectId, q) == Lookup(s.threadIdsByProjectId, q)
    ensures r.selectedThreadId == Some(t.id) && r.selectedProjectId == Some(pid)
    ensures r.(threadsById := s.threadsById, threadIdsByProjectId := s.threadIdsByProjectId,
               selectedThreadId := s.selectedThreadId, selectedProjectId := s.selectedProjectId) == s
  {
    s.(threadsById := s.threadsById[t.id := t],
       threadIdsByProjectId := s.threadIdsByProjectId[pid := [t.id] + Lookup(s.threadIdsByProjectId, pid)],
       selectedThreadId := Some(t.id),
       selectedProjectId := Some(pid))
  }

  /** The repair step of `addThread`: the temporary record gives way to the
    * server's, whose id takes the temporary id's place in the list. */
  function SwapThread(s: Tables, pid: Id, tmpId: Id, created: Thread): (r: Tables)
    ensures tmpId != created.id ==> tmpId !in r.threadsById
    ensures created.id in r.threadsById && r.threadsById[created.id] == created
    ensures forall k :: k in s.threadsById && k != tmpId && k != created.id ==> k in r.threadsById && r.threadsById[k] == s.threadsById[k]
    ensures var before := Lookup(s.threadIdsByProjectId, pid);
      var after := Lookup(r.threadIdsByProjectId, pid);
      && |after| == |before|
      && forall i :: 0 <= i < |before| ==> after[i] == (if before[i] == tmpId then created.id else before[i])
    ensures r.selectedThreadId == Some(created.id) && r.selectedProjectId == Some(pid)
  {
    s.(threadsById := (s.threadsById - {tmpId})[created.id := created],
       threadIdsByProjectId := s.threadIdsByProjectId[pid := ReplaceId(Lookup(s.threadIdsByProjectId, pid), tmpId, created.id)],
       selectedThreadId := Some(created.id),
       selectedProjectId := Some(pid))
  }

  /** A fresh temporary record followed by a successful create leaves the
    * store as if the server's record had been inserted directly. */
  lemma AddThreadNetEffect(s: Tables, pid: Id, optimistic: Thread, created: Thread)
    requires optimistic.id !in s.threadsById
    requires optimistic.id !in Lookup(s.threadIdsByProjectId, pid)
    ensures SwapThread(InsertThread(s, pid, optimistic), pid, optimistic.id, created) == InsertThread(s, pid, created)
  {
    var tmp := optimistic.id;
    var l := Lookup(s.threadIdsByProjectId, pid);
    ReplaceAbsent(l, tmp, created.id);
    assert ReplaceId([tmp] + l, tmp, created.id) == [created.id] + l by {
      assert ([tmp] + l)[1..] == l;
    }
    assert (s.threadsById[tmp := optimistic] - {tmp})[created.id := created] == s.threadsById[created.id := created];
  }

  /** The message `addThread` throws without a project. */
  const ProjectIdRequired: string := "projectId is required"

  /** `deleteThread` field by field, in the order the hook writes them. */
  lemma DeleteThreadFields(s: Tables, threadId: Id)
    requires threadId in s.threadsById
    ensures var pid := s.threadsById[threadId].projectId;
      DeleteThread(s, threadId) == Tables(
        s.usersById, s.projectsById, s.projectIdsByUserId,
        s.threadsById - {threadId},
        s.threadIdsByProjectId[pid := RemoveId(Lookup(s.threadIdsByProjectId, pid), threadId)],
        s.messagesById - Elems(Lookup(s.messageIdsByThreadId, threadId)),
        s.messageIdsByThreadId - {threadId},
        if s.selectedProjectId.Some? then s.selectedProjectId else Some(pid),
        if s.selectedThreadId == Some(threadId) then None else s.selectedThreadId,
        s.projectCounter, s.threadCounter, s.messageCounter)
  {
  }

  class Hook {
    const store: ChatStore.Store
    const projectId: Option<Id>
    var loading: bool
    var error: Option<string>

    constructor (store: ChatStore.Store, projectId: Option<Id>)
      ensures this.store == store && this.projectId == projectId
      ensures !loading && error.None?
    {
      this.store := store;
      this.projectId := projectId;
      loading := false;
      error := None;
    }

    /** `refetch()`: loads the project's threads; a failure is recorded,
      * never thrown, and `loading` ends false. */
    method Refetch(listed: Remote<Wire<Thread>>)
      modifies this, store
      ensures store.Snapshot() == Refetched(old(store.Snapshot()), projectId, listed)
      ensures !Truthy(projectId) ==> loading == old(loading) && error == old(error)
      ensures Truthy(projectId) ==> !loading && error == FetchError(listed)
    {
      if !Truthy(projectId) {
        return;
      }
      loading := true;
      error := None;
      match listed {
        case Fail(m) =>
          error := Some(m);
        case Ok(w) =>
          var rows := RowsOf(w);
          if rows.None? {
            error := Some(UndefinedIdError);
          } else {
            store.SetState(SetThreadsIntoStore(store.Snapshot(), projectId.value, rows.value));
          }
      }
      loading := false;
    }

    /** `addThread(name)`: the temporary id is "tmp-" followed by a fresh
      * UUID. Success stores the server's record in the temporary one's
      * place; failure, including an empty reply, puts the whole snapshot
      * back and rethrows. */
    method AddThread(name: string, uuid: string, now: string, created: Remote<Wire<Thread>>)
      returns (r: Remote<Thread>)
      requires Truthy(projectId) ==> "tmp-" + uuid !in store.threadsById
      requires Truthy(projectId) ==> "tmp-" + uuid !in Lookup(store.threadIdsByProjectId, projectId.value)
      modifies this, store
      ensures !Truthy(projectId) ==>
        r == Fail(ProjectIdRequired) && store.Snapshot() == old(store.Snapshot()) && error == old(error)
      ensures Truthy(projectId) && created.Ok? && AsOne(created.value).Some? ==>
        var c := AsOne(created.value).value;
        r == Ok(c) && store.Snapshot() == InsertThread(old(store.Snapshot()), projectId.value, c) && error == old(error)
      ensures Truthy(projectId) && (created.Fail? || AsOne(created.value).None?) ==>
        && r == Fail(if created.Fail? then created.message else UndefinedIdError)
        && store.Snapshot() == old(store.Snapshot())
        && error == Some(r.message)
      ensures loading == old(loading)
    {
      if !Truthy(projectId) {
        return Fail(ProjectIdRequired);
      }
      var pid := projectId.value;
      var tmpId := "tmp-" + uuid;
      var optimistic := Thread(tmpId, name, pid, now, now);
      var prevState := store.Snapshot();
      store.SetState(InsertThread(store.Snapshot(), pid, optimistic));
      match created {
        case Fail(m) =>
          store.SetState(prevState);
          error := Some(m);
          return Fail(m);
        case Ok(w) =>
          var one := AsOne(w);
          if one.None? {
            store.SetState(prevState);
            error := Some(UndefinedIdError);
            return Fail(UndefinedIdError);
          }
          AddThreadNetEffect(prevState, pid, optimistic, one.value);
          store.SetState(SwapThread(store.Snapshot(), pid, tmpId, one.value));
          return Ok(one.value);
      }
    }

    /** `editThreadName(threadId, name)`: nothing happens for an unknown
      * thread. Otherwise the renamed record is shown at once; success
      * stores the server's record (an empty reply leaves no record under
      * the id), failure puts the prior record back, which restores the
      * store, and rethrows. */
    method EditThreadName(threadId: Id, name: string, now: string, updated: Remote<Wire<Thread>>)
      returns (r: Remote<Option<Thread>>)
      modifies this, store
      ensures threadId !in old(store.threadsById) ==>
        r == Ok(None) && store.Snapshot() == old(store.Snapshot()) && error == old(error)
      ensures threadId in old(store.threadsById) && updated.Ok? ==>
        var s := old(store.Snapshot());
        var u := AsOne(updated.value);
        && r == Ok(u)
        && store.Snapshot() == s.(threadsById := if u.Some? then s.threadsById[threadId := u.value] else s.threadsById - {threadId})
        && error == old(error)
      ensures threadId in old(store.threadsById) && updated.Fail? ==>
        r == Fail(updated.message) && store.Snapshot() == old(store.Snapshot()) && error == Some(updated.message)
      ensures loading == old(loading)
    {
      if threadId !in store.threadsById {
        return Ok(None);
      }
      var prev := store.threadsById[threadId];
      store.threadsById := store.threadsById[threadId := prev.(name := name, updatedAt := now)];
      match updated {
        case Fail(m) =>
          store.threadsById := store.threadsById[threadId := prev];
          assert store.threadsById == old(store.threadsById);
          error := Some(m);
          return Fail(m);
        case Ok(w) =>
          var u := AsOne(w);
          store.threadsById := if u.Some? then store.threadsById[threadId := u.value] else store.threadsById - {threadId};
          assert store.threadsById == (if u.Some? then old(store.threadsById)[threadId := u.value] else old(store.threadsById) - {threadId});
          return Ok(u);
      }
    }

    /** The optimistic step of `removeThread`: the hook's own `setState`
      * callback computes the next tables, and they coincide with what the
      * store's `deleteThread` produces. */
    method RemoveLocally(threadId: Id)
      modifies store
      ensures store.Snapshot() == DeleteThread(old(store.Snapshot()), threadId)
    {
      if threadId !in store.threadsById {
        return;
      }
      var s := store.Snapshot();
      var pid := s.threadsById[threadId].projectId;
      var currentIds := Lookup(s.threadIdsByProjectId, pid);
      var mids := Lookup(s.messageIdsByThreadId, threadId);
      var nextMessagesById := ChatStore.DeleteEach(s.messagesById, mids);
      var selectedThreadId := if s.selectedThreadId == Some(threadId) then None else s.selectedThreadId;
      var selectedProjectId := if s.selectedProjectId.Some? then s.selectedProjectId else Some(pid);
      var next := s.(threadsById := s.threadsById - {threadId},
                     threadIdsByProjectId := s.threadIdsByProjectId[pid := RemoveId(currentIds, threadId)],
                     messagesById := nextMessagesById,
                     messageIdsByThreadId := s.messageIdsByThreadId - {threadId},
                     selectedThreadId := selectedThreadId,
                     selectedProjectId := selectedProjectId);
      DeleteThreadFields(s, threadId);
      store.SetState(next);
    }

    /** `removeThread(threadId)`: removes the thread and its messages at
      * once, then deletes it remotely and refetches. A benign error (the
      * thread is already gone) counts as success; any other error puts
      * the whole snapshot back and rethrows. */
    method RemoveThread(threadId: Id, deleteError: Option<string>, listed: Remote<Wire<Thread>>)
      returns (r: Remote<bool>)
      modifies this, store
      ensures deleteError.None? || IsBenignDeleteError(deleteError.value) ==>
        && r == Ok(true)
        && store.Snapshot() == Refetched(DeleteThread(old(store.Snapshot()), threadId), projectId, listed)
        && error == (if Truthy(projectId) then FetchError(listed) else old(error))
      ensures deleteError.Some? && !IsBenignDeleteError(deleteError.value) ==>
        && r == Fail(deleteError.value)
        && store.Snapshot() == old(store.Snapshot())
        && error == Some(deleteError.value)
    {
      var prevState := store.Snapshot();
      RemoveLocally(threadId);
      Refetch(listed);
      if deleteError.None? || IsBenignDeleteError(deleteError.value) {
        return Ok(true);
      }
      store.SetState(prevState);
      error := deleteError;
      return Fail(deleteError.value);
    }
  }
}
