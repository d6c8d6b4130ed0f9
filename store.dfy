/** The shared mutable chat store (`useStore` of state.ts). Its fields are
  * the tables of EntityStore.Tables; every action replaces the fields that
  * the source's `set` call names. The three cascade deletes run the
  * source's nested loops over copied maps (the `...Reducer` methods) and
  * are proved to compute the declarative EntityStore definitions. */
module ChatStore {
  import opened Wrappers
  import opened EntityStore

  /** `for (const id of ids) delete next[id]` on a copy of `m`. */
  method DeleteEach<V>(m: map<Id, V>, ids: seq<Id>) returns (r: map<Id, V>)
    ensures r == m - Elems(ids)
  {
    r := m;
    var k := 0;
    while k < |ids|
      invariant 0 <= k <= |ids|
      invariant r == m - Elems(ids[..k])
    {
      assert ids[..k + 1] == ids[..k] + [ids[k]];
      r := r - {ids[k]};
      k := k + 1;
    }
    assert ids[..k] == ids;
  }

  lemma MapMinusMinus<V>(m: map<Id, V>, a: set<Id>, b: set<Id>)
    ensures m - a - b == m - (a + b)
  {
  }

  lemma ElemsSnoc(a: seq<Id>, x: Id)
    ensures Elems(a + [x]) == Elems(a) + {x}
  {
  }

  lemma ElemsConcat(a: seq<Id>, b: seq<Id>)
    ensures Elems(a + b) == Elems(a) + Elems(b)
  {
  }

  lemma {:induction false} ChildrenConcat(idx: map<Id, seq<Id>>, a: seq<Id>, b: seq<Id>)
    ensures Children(idx, a + b) == Children(idx, a) + Children(idx, b)
  {
    if b == [] {
      assert a + b == a;
    } else {
      var init := b[..|b| - 1];
      var last := b[|b| - 1];
      assert b == init + [last];
      assert a + b == (a + init) + [last];
      ChildrenSnoc(idx, a + init, last);
      ChildrenSnoc(idx, init, last);
      ChildrenConcat(idx, a, init);
    }
  }

  lemma ChildSetConcat(idx: map<Id, seq<Id>>, a: seq<Id>, b: seq<Id>)
    ensures ChildSet(idx, a + b) == ChildSet(idx, a) + ChildSet(idx, b)
  {
    ChildrenConcat(idx, a, b);
    ElemsConcat(Children(idx, a), Children(idx, b));
  }

  /** The thread loop shared by `deleteProject` and `deleteUser`: for each
    * listed thread, delete the messages its list (in the original state)
    * names, its message list and the thread itself. */
  method DeleteThreadsEach(messageIdsOf: map<Id, seq<Id>>, threads: map<Id, Thread>,
                           messageIds: map<Id, seq<Id>>, messages: map<Id, Message>, tids: seq<Id>)
    returns (threads': map<Id, Thread>, messageIds': map<Id, seq<Id>>, messages': map<Id, Message>)
    ensures threads' == threads - Elems(tids)
    ensures messageIds' == messageIds - Elems(tids)
    ensures messages' == messages - ChildSet(messageIdsOf, tids)
  {
    threads', messageIds', messages' := threads, messageIds, messages;
    var j := 0;
    while j < |tids|
      invariant 0 <= j <= |tids|
      invariant threads' == threads - Elems(tids[..j])
      invariant messageIds' == messageIds - Elems(tids[..j])
      invariant messages' == messages - ChildSet(messageIdsOf, tids[..j])
    {
      var tid := tids[j];
      messages' := DeleteEach(messages', Lookup(messageIdsOf, tid));
      assert tids[..j + 1] == tids[..j] + [tid];
      ThreadsStep(messages, messageIdsOf, tids[..j], tid);
      ElemsSnoc(tids[..j], tid);
      messageIds' := messageIds' - {tid};
      threads' := threads' - {tid};
      j := j + 1;
    }
    assert tids[..j] == tids;
  }

  /** The reducer of `deleteThread`: one loop deleting the thread's messages. */
  method DeleteThreadReducer(s: Tables, threadId: Id) returns (r: Tables)
    ensures r == DeleteThread(s, threadId)
  {
    if threadId !in s.threadsById {
      return s;
    }
    var pid := s.threadsById[threadId].projectId;
    var nextThreadsById := s.threadsById - {threadId};
    var nextThreadIdsByProjectId :=
      s.threadIdsByProjectId[pid := RemoveId(Lookup(s.threadIdsByProjectId, pid), threadId)];
    var mids := Lookup(s.messageIdsByThreadId, threadId);
    var nextMessagesById := DeleteEach(s.messagesById, mids);
    var nextMessageIdsByThreadId := s.messageIdsByThreadId - {threadId};
    r := s.(threadsById := nextThreadsById,
            threadIdsByProjectId := nextThreadIdsByProjectId,
            messagesById := nextMessagesById,
            messageIdsByThreadId := nextMessageIdsByThreadId,
            selectedThreadId := if s.selectedThreadId == Some(threadId) then None else s.selectedThreadId,
            selectedProjectId := if s.selectedProjectId.Some? then s.selectedProjectId else Some(pid));
  }

  /** The reducer of `deleteProject`: the thread loop over the project's
    * list, then the project's own entries. */
  method DeleteProjectReducer(s: Tables, projectId: Id) returns (r: Tables)
    ensures r == DeleteProject(s, projectId)
  {
    if projectId !in s.projectsById {
      return s;
    }
    var p := s.projectsById[projectId];
    var nextProjectsById := s.projectsById - {projectId};
    var nextProjectIdsByUserId :=
      s.projectIdsByUserId[p.userId := RemoveId(Lookup(s.projectIdsByUserId, p.userId), projectId)];
    var tids := Lookup(s.threadIdsByProjectId, projectId);
    var nextThreadsById, nextMessageIdsByThreadId, nextMessagesById :=
      DeleteThreadsEach(s.messageIdsByThreadId, s.threadsById, s.messageIdsByThreadId, s.messagesById, tids);
    var nextThreadIdsByProjectId := s.threadIdsByProjectId - {projectId};
    r := s.(projectsById := nextProjectsById,
            projectIdsByUserId := nextProjectIdsByUserId,
            threadsById := nextThreadsById,
            threadIdsByProjectId := nextThreadIdsByProjectId,
            messagesById := nextMessagesById,
            messageIdsByThreadId := nextMessageIdsByThreadId,
            selectedProjectId := if s.selectedProjectId == Some(projectId) then None else s.selectedProjectId,
            selectedThreadId :=
              if Truthy(s.selectedThreadId) && s.selectedThreadId.value in tids then None else s.selectedThreadId);
  }

  /** Removing the threads of one more project, one project at a time. */
  lemma ThreadsStep<V>(m: map<Id, V>, tidx: map<Id, seq<Id>>, keys: seq<Id>, pid: Id)
    ensures m - Elems(Children(tidx, keys)) - Elems(Lookup(tidx, pid)) == m - Elems(Children(tidx, keys + [pid]))
  {
    ChildrenSnoc(tidx, keys, pid);
    ElemsConcat(Children(tidx, keys), Lookup(tidx, pid));
    MapMinusMinus(m, Elems(Children(tidx, keys)), Elems(Lookup(tidx, pid)));
  }

  /** Removing the messages of one more project's threads. */
  lemma MessagesStep<V>(m: map<Id, V>, tidx: map<Id, seq<Id>>, midx: map<Id, seq<Id>>, keys: seq<Id>, pid: Id)
    ensures m - ChildSet(midx, Children(tidx, keys)) - ChildSet(midx, Lookup(tidx, pid))
         == m - ChildSet(midx, Children(tidx, keys + [pid]))
  {
    ChildrenSnoc(tidx, keys, pid);
    ChildSetConcat(midx, Children(tidx, keys), Lookup(tidx, pid));
    MapMinusMinus(m, ChildSet(midx, Children(tidx, keys)), ChildSet(midx, Lookup(tidx, pid)));
  }

  /** The project loop of `deleteUser`: for each listed project, the thread
    * loop, then the project and its thread list. */
  method DeleteProjectsEach(s: Tables, projectIds: seq<Id>)
    returns (projects': map<Id, Project>, threadIds': map<Id, seq<Id>>, threads': map<Id, Thread>,
             messageIds': map<Id, seq<Id>>, messages': map<Id, Message>)
    ensures projects' == s.projectsById - Elems(projectIds)
    ensures threadIds' == s.threadIdsByProjectId - Elems(projectIds)
    ensures threads' == s.threadsById - Elems(Children(s.threadIdsByProjectId, projectIds))
    ensures messageIds' == s.messageIdsByThreadId - Elems(Children(s.threadIdsByProjectId, projectIds))
    ensures messages' == s.messagesById - ChildSet(s.messageIdsByThreadId, Children(s.threadIdsByProjectId, projectIds))
  {
    projects', threadIds', threads' := s.projectsById, s.threadIdsByProjectId, s.threadsById;
    messageIds', messages' := s.messageIdsByThreadId, s.messagesById;
    ghost var tidx := s.threadIdsByProjectId;
    ghost var midx := s.messageIdsByThreadId;
    var i := 0;
    while i < |projectIds|
      invariant 0 <= i <= |projectIds|
      invariant projects' == s.projectsById - Elems(projectIds[..i])
      invariant threadIds' == s.threadIdsByProjectId - Elems(projectIds[..i])
      invariant threads' == s.threadsById - Elems(Children(tidx, projectIds[..i]))
      invariant messageIds' == s.messageIdsByThreadId - Elems(Children(tidx, projectIds[..i]))
      invariant messages' == s.messagesById - ChildSet(midx, Children(tidx, projectIds[..i]))
    {
      var pid := projectIds[i];
      var tids := Lookup(s.threadIdsByProjectId, pid);
      threads', messageIds', messages' := DeleteThreadsEach(s.messageIdsByThreadId, threads', messageIds', messages', tids);
      assert projectIds[..i + 1] == projectIds[..i] + [pid];
      ThreadsStep(s.threadsById, tidx, projectIds[..i], pid);
      ThreadsStep(s.messageIdsByThreadId, tidx, projectIds[..i], pid);
      MessagesStep(s.messagesById, tidx, midx, projectIds[..i], pid);
      threadIds' := threadIds' - {pid};
      projects' := projects' - {pid};
      i := i + 1;
    }
    assert projectIds[..i] == projectIds;
  }

  /** The reducer of `deleteUser`. */
  method DeleteUserReducer(s: Tables, id: Id) returns (r: Tables)
    ensures r == DeleteUser(s, id)
  {
    if id !in s.usersById {
      return s;
    }
    var nextUsers := s.usersById - {id};
    var projectIds := Lookup(s.projectIdsByUserId, id);
    var nextProjectsById, nextThreadIdsByProjectId, nextThreadsById, nextMessageIdsByThreadId, nextMessagesById :=
      DeleteProjectsEach(s, projectIds);
    var nextProjectIdsByUserId := s.projectIdsByUserId - {id};
    var nextSelectedProjectId :=
      if s.selectedProjectId.GetOr("") in projectIds then None else s.selectedProjectId;
    var nextSelectedThreadId :=
      if Truthy(s.selectedThreadId) && s.selectedThreadId.value in nextThreadsById then s.selectedThreadId else None;
    r := s.(usersById := nextUsers,
            projectsById := nextProjectsById,
            projectIdsByUserId := nextProjectIdsByUserId,
            threadsById := nextThreadsById,
            threadIdsByProjectId := nextThreadIdsByProjectId,
            messagesById := nextMessagesById,
            messageIdsByThreadId := nextMessageIdsByThreadId,
            selectedProjectId := nextSelectedProjectId,
            selectedThreadId := nextSelectedThreadId);
  }

  class Store {
    var usersById: map<Id, User>
    var projectsById: map<Id, Project>
    var projectIdsByUserId: map<Id, seq<Id>>
    var threadsById: map<Id, Thread>
    var threadIdsByProjectId: map<Id, seq<Id>>
    var messagesById: map<Id, Message>
    var messageIdsByThreadId: map<Id, seq<Id>>
    var selectedProjectId: Option<Id>
    var selectedThreadId: Option<Id>
    var projectCounter: nat
    var threadCounter: nat
    var messageCounter: nat

    /** `getState()`: the current state as a value. */
    function Snapshot(): Tables
      reads this
    {
      Tables(usersById, projectsById, projectIdsByUserId, threadsById, threadIdsByProjectId,
             messagesById, messageIdsByThreadId, selectedProjectId, selectedThreadId,
             projectCounter, threadCounter, messageCounter)
    }

    /** The store as created: every table empty. */
    constructor ()
      ensures Snapshot() == Initial()
    {
      usersById, projectsById, projectIdsByUserId := map[], map[], map[];
      threadsById, threadIdsByProjectId := map[], map[];
      messagesById, messageIdsByThreadId := map[], map[];
      selectedProjectId, selectedThreadId := None, None;
      projectCounter, threadCounter, messageCounter := 0, 0, 0;
    }

    /** `setState(() => t)`: replaces the whole state, as a rollback does. */
    method SetState(t: Tables)
      modifies this
      ensures Snapshot() == t
    {
      SetUsersAndProjects(t);
      SetThreadsAndMessages(t);
      SetSelection(t);
      SetCounters(t);
    }

    /** The four groups of fields `SetState` writes, one group at a time. */
    method SetUsersAndProjects(t: Tables)
      modifies this
      ensures Snapshot() == old(Snapshot()).(usersById := t.usersById, projectsById := t.projectsById,
                                             projectIdsByUserId := t.projectIdsByUserId)
    {
      usersById, projectsById, projectIdsByUserId := t.usersById, t.projectsById, t.projectIdsByUserId;
    }

    method SetThreadsAndMessages(t: Tables)
      modifies this
      ensures Snapshot() == old(Snapshot()).(threadsById := t.threadsById, threadIdsByProjectId := t.threadIdsByProjectId,
                                             messagesById := t.messagesById, messageIdsByThreadId := t.messageIdsByThreadId)
    {
      threadsById, threadIdsByProjectId := t.threadsById, t.threadIdsByProjectId;
      messagesById, messageIdsByThreadId := t.messagesById, t.messageIdsByThreadId;
    }

    method SetSelection(t: Tables)
      modifies this
      ensures Snapshot() == old(Snapshot()).(selectedProjectId := t.selectedProjectId, selectedThreadId := t.selectedThreadId)
    {
      selectedProjectId, selectedThreadId := t.selectedProjectId, t.selectedThreadId;
    }

    method SetCounters(t: Tables)
      modifies this
      ensures Snapshot() == old(Snapshot()).(projectCounter := t.projectCounter, threadCounter := t.threadCounter,
                                             messageCounter := t.messageCounter)
    {
      projectCounter, threadCounter, messageCounter := t.projectCounter, t.threadCounter, t.messageCounter;
    }

    method SetInitial()
      modifies this
      ensures Snapshot() == Initial()
    {
      SetState(Initial());
    }

    method UpdateUser(id: Id, userName: string, now: string)
      modifies this
      ensures Snapshot() == EntityStore.UpdateUser(old(Snapshot()), id, userName, now)
    {
      if id !in usersById {
        return;
      }
      usersById := usersById[id := usersById[id].(name := userName, updatedAt := now)];
    }

    method CreateUser(userName: string, now: string)
      modifies this
      ensures Snapshot() == EntityStore.CreateUser(old(Snapshot()), userName, now)
    {
      var id := IdOf(|usersById| + 1);
      usersById := usersById[id := User(id, userName, now)];
    }

    method DeleteUser(id: Id)
      modifies this
      ensures Snapshot() == EntityStore.DeleteUser(old(Snapshot()), id)
    {
      var r := DeleteUserReducer(Snapshot(), id);
      SetState(r);
    }

    method CreateProject(name: string, userId: Id, overview: Option<string>, now: string)
      modifies this
      ensures Snapshot() == EntityStore.CreateProject(old(Snapshot()), name, userId, overview, now)
    {
      var projectId := IdOf(projectCounter);
      projectsById := projectsById[projectId := Project(projectId, name, userId, overview, now, now)];
      projectIdsByUserId := projectIdsByUserId[userId := PushUnique(Lookup(projectIdsByUserId, userId), projectId)];
      projectCounter := projectCounter + 1;
    }

    method UpdateProject(id: Id, name: string, overview: Option<string>, now: string)
      modifies this
      ensures Snapshot() == EntityStore.UpdateProject(old(Snapshot()), id, name, overview, now)
    {
      if id !in projectsById {
        return;
      }
      projectsById := projectsById[id := projectsById[id].(name := name, overview := overview, updatedAt := now)];
    }

    method DeleteProject(projectId: Id)
      modifies this
      ensures Snapshot() == EntityStore.DeleteProject(old(Snapshot()), projectId)
    {
      var r := DeleteProjectReducer(Snapshot(), projectId);
      SetState(r);
    }

    method CreateThread(name: string, projectId: Id, now: string)
      modifies this
      ensures Snapshot() == EntityStore.CreateThread(old(Snapshot()), name, projectId, now)
    {
      var threadId := IdOf(threadCounter);
      var s := Snapshot();
      SetState(s.(threadsById := threadsById[threadId := Thread(threadId, name, projectId, now, now)],
                  threadIdsByProjectId := threadIdsByProjectId[projectId := PushUnique(Lookup(threadIdsByProjectId, projectId), threadId)],
                  selectedThreadId := Some(threadId),
                  selectedProjectId := Some(projectId),
                  threadCounter := threadCounter + 1));
    }

    method UpdateThread(id: Id, name: string, now: string)
      modifies this
      ensures Snapshot() == EntityStore.UpdateThread(old(Snapshot()), id, name, now)
    {
      if id !in threadsById {
        return;
      }
      threadsById := threadsById[id := threadsById[id].(name := name, updatedAt := now)];
    }

    method DeleteThread(threadId: Id)
      modifies this
      ensures Snapshot() == EntityStore.DeleteThread(old(Snapshot()), threadId)
    {
      var r := DeleteThreadReducer(Snapshot(), threadId);
      SetState(r);
    }

    method SelectThread(threadId: Id)
      modifies this
      ensures Snapshot() == EntityStore.SelectThread(old(Snapshot()), threadId)
    {
      if threadId == "" {
        selectedThreadId := None;
        return;
      }
      var projectIdOfThread := if threadId in threadsById then Some(threadsById[threadId].projectId) else None;
      selectedThreadId := Some(threadId);
      selectedProjectId := if projectIdOfThread.Some? then projectIdOfThread else selectedProjectId;
    }

    method CreateMessage(content: string, threadId: Id, role: Role, now: string)
      modifies this
      ensures Snapshot() == EntityStore.CreateMessage(old(Snapshot()), content, threadId, role, now)
    {
      var msgId := IdOf(messageCounter);
      messagesById := messagesById[msgId := Message(msgId, content, threadId, role, now)];
      messageIdsByThreadId := messageIdsByThreadId[threadId := Lookup(messageIdsByThreadId, threadId) + [msgId]];
      messageCounter := messageCounter + 1;
    }

    method UpdateMessage(id: Id, content: string)
      modifies this
      ensures Snapshot() == EntityStore.UpdateMessage(old(Snapshot()), id, content)
    {
      if id !in messagesById {
        return;
      }
      messagesById := messagesById[id := messagesById[id].(content := content)];
    }

    method DeleteMessage(messageId: Id)
      modifies this
      ensures Snapshot() == EntityStore.DeleteMessage(old(Snapshot()), messageId)
    {
      if messageId !in messagesById {
        return;
      }
      var tid := messagesById[messageId].threadId;
      messagesById := messagesById - {messageId};
      messageIdsByThreadId := messageIdsByThreadId[tid := RemoveId(Lookup(messageIdsByThreadId, tid), messageId)];
    }
  }
}
