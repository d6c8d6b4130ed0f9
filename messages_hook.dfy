/** The messages hook of the web client (`useMessages(threadId)`): loads a
  * thread's messages into the shared store and sends a message
  * optimistically. Remote calls are inputs, as in the threads hook. */
module MessagesHook {
  import opened Wrappers
  import opened EntityStore
  import opened Optimistic
  import ChatStore

  function MessageKey(m: Message): Id
  {
    m.id
  }

  /** `setMessagesIntoStore(tid, rows)`: merges the rows into
    * `messagesById` and replaces the thread's list by their ids. */
  function SetMessagesIntoStore(s: Tables, tid: Id, rows: seq<Message>): (r: Tables)
    ensures Lookup(r.messageIdsByThreadId, tid) == KeysOf(rows, MessageKey)
    ensures forall t :: t != tid ==> Lookup(r.messageIdsByThreadId, t) == Lookup(s.messageIdsByThreadId, t)
    ensures r.messagesById.Keys == s.messagesById.Keys + Elems(KeysOf(rows, MessageKey))
    ensures forall k :: k in s.messagesById && k !in KeysOf(rows, MessageKey) ==> r.messagesById[k] == s.messagesById[k]
    ensures r.(messagesById := s.messagesById, messageIdsByThreadId := s.messageIdsByThreadId) == s
  {
    s.(messagesById := Upsert(s.messagesById, rows, MessageKey),
       messageIdsByThreadId := s.messageIdsByThreadId[tid := KeysOf(rows, MessageKey)])
  }

  /** After a refetch the thread's messages, as the hook lists them, are
    * exactly the fetched rows in response order. */
  lemma RefetchListsRows(s: Tables, tid: Id, rows: seq<Message>)
    requires NoDup(KeysOf(rows, MessageKey))
    ensures GetMessagesByThreadId(SetMessagesIntoStore(s, tid, rows), tid) == rows
  {
    UpsertThenResolve(s.messagesById, rows, MessageKey);
  }

  /** The store after `refetch()`: nothing happens without a thread; a
    * failed listing or an empty body leaves the store as it was. */
  function Refetched(s: Tables, threadId: Option<Id>, listed: Remote<Wire<Message>>): (r: Tables)
    ensures !Truthy(threadId) || listed.Fail? || listed.value.Nothing? ==> r == s
    ensures Truthy(threadId) && listed.Ok? && !listed.value.Nothing? ==>
      r == SetMessagesIntoStore(s, threadId.value, RowsOf(listed.value).value)
  {
    if !Truthy(threadId) then s
    else match listed
      case Fail(_) => s
      case Ok(w) => if w.Nothing? then s else SetMessagesIntoStore(s, threadId.value, RowsOf(w).value)
  }

  function FetchError(listed: Remote<Wire<Message>>): (e: Option<string>)
    ensures e.None? <==> listed.Ok? && !listed.value.Nothing?
    ensures listed.Fail? ==> e == Some(listed.message)
  {
    match listed
    case Fail(m) => Some(m)
    case Ok(w) => if w.Nothing? then Some(UndefinedIdError) else None
  }

  /** The optimistic step of `sendMessage`: the record is stored and its id
    * goes to the tail of the thread's list. */
  function AppendMessage(s: Tables, tid: Id, m: Message): (r: Tables)
    ensures r.messagesById == s.messagesById[m.id := m]
    ensures Lookup(r.messageIdsByThreadId, tid) == Lookup(s.messageIdsByThreadId, tid) + [m.id]
    ensures forall t :: t != tid ==> Lookup(r.messageIdsByThreadId, t) == Lookup(s.messageIdsByThreadId, t)
    ensures r.(messagesById := s.messagesById, messageIdsByThreadId := s.messageIdsByThreadId) == s
  {
    s.(messagesById := s.messagesById[m.id := m],
       messageIdsByThreadId := s.messageIdsByThreadId[tid := Lookup(s.messageIdsByThreadId, tid) + [m.id]])
  }

  /** The repair step of `sendMessage`: the server's record replaces the
    * temporary one, in the same list position. */
  function SwapMessage(s: Tables, tid: Id, tmpId: Id, created: Message): (r: Tables)
    ensures tmpId != created.id ==> tmpId !in r.messagesById
    ensures created.id in r.messagesById && r.messagesById[created.id] == created
    ensures var before := Lookup(s.messageIdsByThreadId, tid);
      var after := Lookup(r.messageIdsByThreadId, tid);
      && |after| == |before|
      && forall i :: 0 <= i < |before| ==> after[i] == (if before[i] == tmpId then created.id else before[i])
  {
    s.(messagesById := (s.messagesById - {tmpId})[created.id := created],
       messageIdsByThreadId := s.messageIdsByThreadId[tid := ReplaceId(Lookup(s.messageIdsByThreadId, tid), tmpId, created.id)])
  }

  /** A fresh temporary message followed by a successful create leaves the
    * store as if the server's record had been appended directly: the
    * thread's list stays in sending order. */
  lemma SendMessageNetEffect(s: Tables, tid: Id, optimistic: Message, created: Message)
    requires optimistic.id !in s.messagesById
    requires optimistic.id !in Lookup(s.messageIdsByThreadId, tid)
    ensures SwapMessage(AppendMessage(s, tid, optimistic), tid, optimistic.id, created) == AppendMessage(s, tid, created)
  {
    var tmp := optimistic.id;
    var l := Lookup(s.messageIdsByThreadId, tid);
    ReplaceAbsent(l, tmp, created.id);
    assert ReplaceId(l + [tmp], tmp, created.id) == l + [created.id];
    assert (s.messagesById[tmp := optimistic] - {tmp})[created.id := created] == s.messagesById[created.id := created];
  }

  /** When the create reply has no id the store is rebuilt by a refetch:
    * the temporary id leaves the thread's list, but its record stays in
    * `messagesById`, where no list points at it. */
  lemma FallbackKeepsTmpRecord(s: Tables, tid: Id, optimistic: Message, rows: seq<Message>)
    requires optimistic.id !in KeysOf(rows, MessageKey)
    ensures var r := SetMessagesIntoStore(AppendMessage(s, tid, optimistic), tid, rows);
      && optimistic.id !in Lookup(r.messageIdsByThreadId, tid)
      && optimistic.id in r.messagesById && r.messagesById[optimistic.id] == optimistic
  {
  }

  /** What the create call answered, after `asOne`: a record with an id,
    * or one whose id is null. */
  datatype Echo = Record(message: Message) | IdlessRecord

  const ThreadIdRequired: string := "threadId is required"

  class Hook {
    const store: ChatStore.Store
    const threadId: Option<Id>
    var loading: bool
    var error: Option<string>

    constructor (store: ChatStore.Store, threadId: Option<Id>)
      ensures this.store == store && this.threadId == threadId
      ensures !loading && error.None?
    {
      this.store := store;
      this.threadId := threadId;
      loading := false;
      error := None;
    }

    /** `refetch()`: loads the thread's messages; a failure is recorded,
      * never thrown. */
    method Refetch(listed: Remote<Wire<Message>>)
      modifies this, store
      ensures store.Snapshot() == Refetched(old(store.Snapshot()), threadId, listed)
      ensures !Truthy(threadId) ==> loading == old(loading) && error == old(error)
      ensures Truthy(threadId) ==> !loading && error == FetchError(listed)
    {
      if !Truthy(threadId) {
        return;
      }
      loading := true;
      error := None;
      match listed {
        case Fail(m) =>
          error := Some(m);
        case Ok(w) =>
          var rows := RowsOf(w);
          if rows.None? {
            error := Some(UndefinedIdError);
          } else {
            store.SetState(SetMessagesIntoStore(store.Snapshot(), threadId.value, rows.value));
          }
      }
      loading := false;
    }

    /** `sendMessage(content, role)`: the temporary message is appended
      * first. A reply with an id replaces it in place; an empty or idless
      * reply is answered by a refetch with no rollback (returning the
      * reply, or the temporary message when there was none); a failed
      * call puts the whole snapshot back and rethrows. */
    method SendMessage(content: string, role: Role, uuid: string, now: string,
                       created: Remote<Wire<Echo>>, listed: Remote<Wire<Message>>)
      returns (r: Remote<Echo>)
      requires Truthy(threadId) ==> "tmp-" + uuid !in store.messagesById
      requires Truthy(threadId) ==> "tmp-" + uuid !in Lookup(store.messageIdsByThreadId, threadId.value)
      modifies this, store
      ensures !Truthy(threadId) ==>
        r == Fail(ThreadIdRequired) && store.Snapshot() == old(store.Snapshot()) && error == old(error)
      ensures Truthy(threadId) ==>
        var s := old(store.Snapshot());
        var tid := threadId.value;
        var optimistic := Message("tmp-" + uuid, content, tid, role, now);
        match created
        case Fail(m) =>
          r == Fail(m) && store.Snapshot() == s && error == Some(m)
        case Ok(w) =>
          var one := AsOne(w);
          if one.Some? && one.value.Record? then
            var c := one.value.message;
            r == Ok(Record(c)) && store.Snapshot() == AppendMessage(s, tid, c) && error == old(error)
          else
            && r == Ok(if one.None? then Record(optimistic) else IdlessRecord)
            && store.Snapshot() == Refetched(AppendMessage(s, tid, optimistic), threadId, listed)
            && error == FetchError(listed)
    {
      if !Truthy(threadId) {
        return Fail(ThreadIdRequired);
      }
      var tid := threadId.value;
      var tmpId := "tmp-" + uuid;
      var optimistic := Message(tmpId, content, tid, role, now);
      var prevState := store.Snapshot();
      store.SetState(AppendMessage(store.Snapshot(), tid, optimistic));
      match created {
        case Fail(m) =>
          store.SetState(prevState);
          error := Some(m);
          return Fail(m);
        case Ok(w) =>
          var one := AsOne(w);
          if one.None? || one.value.IdlessRecord? {
            Refetch(listed);
            return Ok(if one.None? then Record(optimistic) else IdlessRecord);
          }
          var c := one.value.message;
          SendMessageNetEffect(prevState, tid, optimistic, c);
          store.SetState(SwapMessage(store.Snapshot(), tid, tmpId, c));
          return Ok(Record(c));
      }
    }
  }
}
