/** Properties of the store's actions that relate several tables or several
  * calls: every action keeps the index lists free of dangling ids (given
  * fresh counter ids for the creating actions), the getters return the
  * listed records in list order, new projects and threads come first, new
  * messages come last, and deletes are idempotent. */
module StoreInvariants {
  import opened Wrappers
  import opened EntityStore

  // ---------------------------------------------------------------------
  // Getters on a well-formed state

  /** On a well-formed state a getter returns one record per listed id, in
    * list order, each under its listed id and belonging to the parent. */
  lemma ThreadsInListOrder(s: Tables, projectId: Id)
    requires Valid(s)
    ensures var ids := Lookup(s.threadIdsByProjectId, projectId);
      var r := GetThreadsByProjectId(s, projectId);
      |r| == |ids| && forall i :: 0 <= i < |ids| ==> r[i].id == ids[i] && r[i].projectId == projectId
  {
  }

  lemma MessagesInListOrder(s: Tables, threadId: Id)
    requires Valid(s)
    ensures var ids := Lookup(s.messageIdsByThreadId, threadId);
      var r := GetMessagesByThreadId(s, threadId);
      |r| == |ids| && forall i :: 0 <= i < |ids| ==> r[i].id == ids[i] && r[i].threadId == threadId
  {
  }

  lemma ProjectsInListOrder(s: Tables, userId: Id)
    requires Valid(s)
    ensures var ids := Lookup(s.projectIdsByUserId, userId);
      var r := GetProjectByUserId(s, userId);
      |r| == |ids| && forall i :: 0 <= i < |ids| ==> r[i].id == ids[i] && r[i].userId == userId
  {
  }

  // ---------------------------------------------------------------------
  // Ordering of the creating actions

  /** A new thread is listed first among its project's threads. */
  lemma CreateThreadComesFirst(s: Tables, name: string, projectId: Id, now: string)
    requires Valid(s) && IdOf(s.threadCounter) !in s.threadsById
    ensures var id := IdOf(s.threadCounter);
      GetThreadsByProjectId(CreateThread(s, name, projectId, now), projectId)
        == [Thread(id, name, projectId, now, now)] + GetThreadsByProjectId(s, projectId)
  {
    var id := IdOf(s.threadCounter);
    var ids := Lookup(s.threadIdsByProjectId, projectId);
    assert id !in ids;
    var m' := s.threadsById[id := Thread(id, name, projectId, now, now)];
    ResolveUpdateOther(s.threadsById, ids, id, Thread(id, name, projectId, now, now));
    ResolveConcat(m', [id], ids);
  }

  /** A new project is listed first among its owner's projects. */
  lemma CreateProjectComesFirst(s: Tables, name: string, userId: Id, overview: Option<string>, now: string)
    requires Valid(s) && IdOf(s.projectCounter) !in s.projectsById
    ensures var id := IdOf(s.projectCounter);
      GetProjectByUserId(CreateProject(s, name, userId, overview, now), userId)
        == [Project(id, name, userId, overview, now, now)] + GetProjectByUserId(s, userId)
  {
    var id := IdOf(s.projectCounter);
    var ids := Lookup(s.projectIdsByUserId, userId);
    assert id !in ids;
    var p := Project(id, name, userId, overview, now, now);
    ResolveUpdateOther(s.projectsById, ids, id, p);
    ResolveConcat(s.projectsById[id := p], [id], ids);
  }

  /** A new message is listed last in its thread: the history stays chronological. */
  lemma CreateMessageComesLast(s: Tables, content: string, threadId: Id, role: Role, now: string)
    requires Valid(s) && IdOf(s.messageCounter) !in s.messagesById
    ensures var id := IdOf(s.messageCounter);
      GetMessagesByThreadId(CreateMessage(s, content, threadId, role, now), threadId)
        == GetMessagesByThreadId(s, threadId) + [Message(id, content, threadId, role, now)]
  {
    var id := IdOf(s.messageCounter);
    var ids := Lookup(s.messageIdsByThreadId, threadId);
    assert id !in ids;
    var msg := Message(id, content, threadId, role, now);
    ResolveUpdateOther(s.messagesById, ids, id, msg);
    ResolveConcat(s.messagesById[id := msg], ids, [id]);
  }

  // ---------------------------------------------------------------------
  // Idempotent deletes

  lemma DeleteProjectIdempotent(s: Tables, projectId: Id)
    ensures DeleteProject(DeleteProject(s, projectId), projectId) == DeleteProject(s, projectId)
  {
  }

  lemma DeleteThreadIdempotent(s: Tables, threadId: Id)
    ensures DeleteThread(DeleteThread(s, threadId), threadId) == DeleteThread(s, threadId)
  {
  }

  lemma DeleteUserIdempotent(s: Tables, userId: Id)
    ensures DeleteUser(DeleteUser(s, userId), userId) == DeleteUser(s, userId)
  {
  }

  // ---------------------------------------------------------------------
  // Every action keeps the state well formed

  lemma UpdateUserPreservesValid(s: Tables, id: Id, name: string, now: string)
    requires Valid(s)
    ensures Valid(UpdateUser(s, id, name, now))
  {
  }

  lemma CreateUserPreservesValid(s: Tables, name: string, now: string)
    requires Valid(s)
    ensures Valid(CreateUser(s, name, now))
  {
  }

  lemma UpdateProjectPreservesValid(s: Tables, id: Id, name: string, overview: Option<string>, now: string)
    requires Valid(s)
    ensures Valid(UpdateProject(s, id, name, overview, now))
  {
  }

  lemma UpdateThreadPreservesValid(s: Tables, id: Id, name: string, now: string)
    requires Valid(s)
    ensures Valid(UpdateThread(s, id, name, now))
  {
  }

  lemma SelectThreadPreservesValid(s: Tables, id: Id)
    requires Valid(s)
    ensures Valid(SelectThread(s, id))
  {
  }

  lemma UpdateMessagePreservesValid(s: Tables, id: Id, content: string)
    requires Valid(s)
    ensures Valid(UpdateMessage(s, id, content))
  {
  }

  lemma CreateProjectPreservesValid(s: Tables, name: string, userId: Id, overview: Option<string>, now: string)
    requires Valid(s) && IdOf(s.projectCounter) !in s.projectsById
    ensures Valid(CreateProject(s, name, userId, overview, now))
  {
    var r := CreateProject(s, name, userId, overview, now);
    var id := IdOf(s.projectCounter);
    forall u, p | u in r.projectIdsByUserId && p in r.projectIdsByUserId[u]
      ensures p in r.projectsById && r.projectsById[p].userId == u
    {
      assert p in Lookup(r.projectIdsByUserId, u);
      if p != id {
        assert p in Elems(Lookup(s.projectIdsByUserId, u));
      }
    }
  }

  lemma CreateThreadPreservesValid(s: Tables, name: string, projectId: Id, now: string)
    requires Valid(s) && IdOf(s.threadCounter) !in s.threadsById
    ensures Valid(CreateThread(s, name, projectId, now))
  {
    var r := CreateThread(s, name, projectId, now);
    var id := IdOf(s.threadCounter);
    forall q, t | q in r.threadIdsByProjectId && t in r.threadIdsByProjectId[q]
      ensures t in r.threadsById && r.threadsById[t].projectId == q
    {
      assert t in Lookup(r.threadIdsByProjectId, q);
      if t != id {
        assert t in Elems(Lookup(s.threadIdsByProjectId, q));
      }
    }
  }

  lemma CreateMessagePreservesValid(s: Tables, content: string, threadId: Id, role: Role, now: string)
    requires Valid(s) && IdOf(s.messageCounter) !in s.messagesById
    ensures Valid(CreateMessage(s, content, threadId, role, now))
  {
  }

  lemma DeleteMessagePreservesValid(s: Tables, messageId: Id)
    requires Valid(s)
    ensures Valid(DeleteMessage(s, messageId))
  {
    var r := DeleteMessage(s, messageId);
    if messageId in s.messagesById {
      forall t, m | t in r.messageIdsByThreadId && m in r.messageIdsByThreadId[t]
        ensures m in r.messagesById && r.messagesById[m].threadId == t
      {
        assert m != messageId;
        assert m in Elems(r.messageIdsByThreadId[t]);
      }
    }
  }

  lemma DeleteThreadPreservesValid(s: Tables, threadId: Id)
    requires Valid(s)
    ensures Valid(DeleteThread(s, threadId))
  {
    if threadId in s.threadsById {
      DeleteThreadThreadIndex(s, threadId);
      DeleteThreadMessageIndex(s, threadId);
    }
  }

  lemma DeleteThreadThreadIndex(s: Tables, threadId: Id)
    requires Valid(s) && threadId in s.threadsById
    ensures ThreadIndexSound(DeleteThread(s, threadId))
  {
    var r := DeleteThread(s, threadId);
    var pid := s.threadsById[threadId].projectId;
    forall q, t | q in r.threadIdsByProjectId && t in r.threadIdsByProjectId[q]
      ensures t in r.threadsById && r.threadsById[t].projectId == q
    {
      assert t in Elems(r.threadIdsByProjectId[q]);
      if q == pid {
        assert t != threadId;
      } else {
        assert t in s.threadIdsByProjectId[q];
        assert t != threadId;
      }
    }
  }

  lemma DeleteThreadMessageIndex(s: Tables, threadId: Id)
    requires Valid(s) && threadId in s.threadsById
    ensures MessageIndexSound(DeleteThread(s, threadId))
  {
    var r := DeleteThread(s, threadId);
    var mids := Lookup(s.messageIdsByThreadId, threadId);
    forall t, m | t in r.messageIdsByThreadId && m in r.messageIdsByThreadId[t]
      ensures m in r.messagesById && r.messagesById[m].threadId == t
    {
      assert t != threadId;
      assert m in s.messagesById && s.messagesById[m].threadId == t;
      assert m !in mids;
    }
  }

  lemma DeleteProjectPreservesValid(s: Tables, projectId: Id)
    requires Valid(s)
    ensures Valid(DeleteProject(s, projectId))
  {
    if projectId in s.projectsById {
      DeleteProjectProjectIndex(s, projectId);
      DeleteProjectThreadIndex(s, projectId);
      DeleteProjectMessageIndex(s, projectId);
    }
  }

  lemma DeleteProjectProjectIndex(s: Tables, projectId: Id)
    requires Valid(s) && projectId in s.projectsById
    ensures ProjectIndexSound(DeleteProject(s, projectId))
  {
    var r := DeleteProject(s, projectId);
    var owner := s.projectsById[projectId].userId;
    forall u, p | u in r.projectIdsByUserId && p in r.projectIdsByUserId[u]
      ensures p in r.projectsById && r.projectsById[p].userId == u
    {
      assert p in Elems(r.projectIdsByUserId[u]);
      if u != owner {
        assert p in s.projectIdsByUserId[u];
      }
    }
  }

  lemma DeleteProjectThreadIndex(s: Tables, projectId: Id)
    requires Valid(s) && projectId in s.projectsById
    ensures ThreadIndexSound(DeleteProject(s, projectId))
  {
    var r := DeleteProject(s, projectId);
    var tids := Lookup(s.threadIdsByProjectId, projectId);
    forall q, t | q in r.threadIdsByProjectId && t in r.threadIdsByProjectId[q]
      ensures t in r.threadsById && r.threadsById[t].projectId == q
    {
      assert t in s.threadsById && s.threadsById[t].projectId == q;
      assert t !in tids;
    }
  }

  lemma DeleteProjectMessageIndex(s: Tables, projectId: Id)
    requires Valid(s) && projectId in s.projectsById
    ensures MessageIndexSound(DeleteProject(s, projectId))
  {
    var r := DeleteProject(s, projectId);
    var tids := Lookup(s.threadIdsByProjectId, projectId);
    forall t, m | t in r.messageIdsByThreadId && m in r.messageIdsByThreadId[t]
      ensures m in r.messagesById && r.messagesById[m].threadId == t
    {
      assert m in s.messagesById && s.messagesById[m].threadId == t;
      ChildrenMembers(s.messageIdsByThreadId, tids, m);
      assert m !in Children(s.messageIdsByThreadId, tids);
    }
  }

  lemma DeleteUserPreservesValid(s: Tables, userId: Id)
    requires Valid(s)
    ensures Valid(DeleteUser(s, userId))
  {
    if userId in s.usersById {
      DeleteUserProjectIndex(s, userId);
      DeleteUserThreadIndex(s, userId);
      DeleteUserMessageIndex(s, userId);
    }
  }

  lemma DeleteUserProjectIndex(s: Tables, userId: Id)
    requires Valid(s) && userId in s.usersById
    ensures ProjectIndexSound(DeleteUser(s, userId))
  {
    var r := DeleteUser(s, userId);
    var pids := Lookup(s.projectIdsByUserId, userId);
    forall u, p | u in r.projectIdsByUserId && p in r.projectIdsByUserId[u]
      ensures p in r.projectsById && r.projectsById[p].userId == u
    {
      assert p in s.projectsById && s.projectsById[p].userId == u;
      assert p !in pids;
    }
  }

  lemma DeleteUserThreadIndex(s: Tables, userId: Id)
    requires Valid(s) && userId in s.usersById
    ensures ThreadIndexSound(DeleteUser(s, userId))
  {
    var r := DeleteUser(s, userId);
    var pids := Lookup(s.projectIdsByUserId, userId);
    var tids := Children(s.threadIdsByProjectId, pids);
    forall q, t | q in r.threadIdsByProjectId && t in r.threadIdsByProjectId[q]
      ensures t in r.threadsById && r.threadsById[t].projectId == q
    {
      assert t in s.threadsById && s.threadsById[t].projectId == q;
      ChildrenMembers(s.threadIdsByProjectId, pids, t);
      assert t !in tids;
    }
  }

  lemma DeleteUserMessageIndex(s: Tables, userId: Id)
    requires Valid(s) && userId in s.usersById
    ensures MessageIndexSound(DeleteUser(s, userId))
  {
    var r := DeleteUser(s, userId);
    var pids := Lookup(s.projectIdsByUserId, userId);
    var tids := Children(s.threadIdsByProjectId, pids);
    forall t, m | t in r.messageIdsByThreadId && m in r.messageIdsByThreadId[t]
      ensures m in r.messagesById && r.messagesById[m].threadId == t
    {
      assert m in s.messagesById && s.messagesById[m].threadId == t;
      ChildrenMembers(s.messageIdsByThreadId, tids, m);
      assert m !in Children(s.messageIdsByThreadId, tids);
    }
  }
}
