/** The normalized chat store of the web client: id-keyed tables of users,
  * projects, threads and messages, per-parent ordered id lists, two
  * selection pointers and three id counters.
  *
  * This module holds the store's state as a value (`Tables`) and every
  * action as the function from the old state to the new one, exactly as the
  * store's `set((s) => ...)` reducers compute it. The cascade deletes are
  * given here declaratively (which ids disappear); module ChatStore computes
  * them with the source's nested loops and proves the two agree. */
module EntityStore {
  import opened Wrappers
  import opened Text

  type Id = string

  datatype Role = UserRole | AssistantRole

  datatype User = User(id: Id, name: string, updatedAt: string)

  datatype Project = Project(id: Id, name: string, userId: Id, overview: Option<string>,
                             createdAt: string, updatedAt: string)

  datatype Thread = Thread(id: Id, name: string, projectId: Id, createdAt: string, updatedAt: string)

  datatype Message = Message(id: Id, content: string, threadId: Id, role: Role, createdAt: string)

  /** The whole store state (`State` of state.ts). */
  datatype Tables = Tables(
    usersById: map<Id, User>,
    projectsById: map<Id, Project>,
    projectIdsByUserId: map<Id, seq<Id>>,
    threadsById: map<Id, Thread>,
    threadIdsByProjectId: map<Id, seq<Id>>,
    messagesById: map<Id, Message>,
    messageIdsByThreadId: map<Id, seq<Id>>,
    selectedProjectId: Option<Id>,
    selectedThreadId: Option<Id>,
    projectCounter: nat,
    threadCounter: nat,
    messageCounter: nat)

  /** `m[k] ?? []`: the id list stored under `k`, or the empty list. */
  function Lookup(m: map<Id, seq<Id>>, k: Id): seq<Id>
  {
    if k in m then m[k] else []
  }

  function Elems(xs: seq<Id>): set<Id>
  {
    set x | x in xs
  }

  predicate NoDup(xs: seq<Id>)
  {
    forall i, j :: 0 <= i < j < |xs| ==> xs[i] != xs[j]
  }

  /** `String(n)`, the id a counter hands out. */
  function IdOf(n: nat): Id
  {
    NatToString(n)
  }

  // ---------------------------------------------------------------------
  // List helpers

  /** `pushUnique`: prepends `id` unless it is already listed, so a list
    * without duplicates stays without duplicates. */
  function PushUnique(arr: seq<Id>, id: Id): (r: seq<Id>)
    ensures id in arr ==> r == arr
    ensures id !in arr ==> r == [id] + arr
    ensures Elems(r) == Elems(arr) + {id}
    ensures NoDup(arr) ==> NoDup(r)
  {
    if id in arr then arr else [id] + arr
  }

  /** `removeId`: drops every occurrence of `id`, keeping the others. */
  function RemoveId(arr: seq<Id>, id: Id): (r: seq<Id>)
    ensures id !in r
    ensures Elems(r) == Elems(arr) - {id}
    ensures |r| <= |arr|
    ensures id !in arr ==> r == arr
  {
    if arr == [] then []
    else
      assert arr == [arr[0]] + arr[1..];
      assert Elems(arr) == {arr[0]} + Elems(arr[1..]);
      var rest := RemoveId(arr[1..], id);
      if arr[0] == id then rest
      else
        assert Elems([arr[0]] + rest) == {arr[0]} + Elems(rest);
        [arr[0]] + rest
  }

  /** Removing distributes over concatenation, so the relative order of the
    * remaining ids is the order they had. */
  lemma {:induction false} RemoveIdConcat(a: seq<Id>, b: seq<Id>, id: Id)
    ensures RemoveId(a + b, id) == RemoveId(a, id) + RemoveId(b, id)
  {
    if a == [] {
      assert a + b == b;
    } else {
      assert (a + b)[0] == a[0];
      assert (a + b)[1..] == a[1..] + b;
      RemoveIdConcat(a[1..], b, id);
    }
  }

  /** Removing keeps a duplicate-free list duplicate-free. */
  lemma {:induction false} RemoveIdNoDup(arr: seq<Id>, id: Id)
    requires NoDup(arr)
    ensures NoDup(RemoveId(arr, id))
  {
    if arr != [] {
      assert NoDup(arr[1..]) by {
        forall i, j | 0 <= i < j < |arr[1..]| ensures arr[1..][i] != arr[1..][j] {
          assert arr[1..][i] == arr[i + 1] && arr[1..][j] == arr[j + 1];
        }
      }
      RemoveIdNoDup(arr[1..], id);
      var rest := RemoveId(arr[1..], id);
      if arr[0] != id {
        assert arr[0] !in Elems(rest) by {
          forall k | 0 <= k < |arr[1..]| ensures arr[1..][k] != arr[0] {
            assert arr[1..][k] == arr[k + 1];
          }
        }
        forall i, j | 0 <= i < j < |[arr[0]] + rest| ensures ([arr[0]] + rest)[i] != ([arr[0]] + rest)[j] {
          if i == 0 {
            assert ([arr[0]] + rest)[j] == rest[j - 1];
            assert rest[j - 1] in Elems(rest);
          }
        }
      }
    }
  }

  /** `ids.map((id) => map[id]).filter(Boolean)`: the records the ids name,
    * in list order, skipping ids that have no record. */
  function Resolve<T>(m: map<Id, T>, ids: seq<Id>): (r: seq<T>)
    ensures |r| <= |ids|
    ensures (forall i :: 0 <= i < |ids| ==> ids[i] !in m) ==> r == []
    ensures (forall i :: 0 <= i < |ids| ==> ids[i] in m) ==>
              |r| == |ids| && forall i :: 0 <= i < |ids| ==> r[i] == m[ids[i]]
  {
    if ids == [] then []
    else
      var rest := Resolve(m, ids[1..]);
      assert (forall i :: 0 <= i < |ids| ==> ids[i] in m) ==> forall i :: 0 <= i < |ids[1..]| ==> ids[1..][i] in m;
      assert (forall i :: 0 <= i < |ids| ==> ids[i] !in m) ==> forall i :: 0 <= i < |ids[1..]| ==> ids[1..][i] !in m;
      var r := (if ids[0] in m then [m[ids[0]]] else []) + rest;
      r
  }

  /** Resolving is unaffected by a record stored under an id the list does not name. */
  lemma {:induction false} ResolveUpdateOther<T>(m: map<Id, T>, ids: seq<Id>, k: Id, v: T)
    requires k !in ids
    ensures Resolve(m[k := v], ids) == Resolve(m, ids)
  {
    if ids != [] {
      ResolveUpdateOther(m, ids[1..], k, v);
    }
  }

  lemma {:induction false} ResolveConcat<T>(m: map<Id, T>, a: seq<Id>, b: seq<Id>)
    ensures Resolve(m, a + b) == Resolve(m, a) + Resolve(m, b)
  {
    if a == [] {
      assert a + b == b;
    } else {
      assert (a + b)[0] == a[0];
      assert (a + b)[1..] == a[1..] + b;
      ResolveConcat(m, a[1..], b);
    }
  }

  // ---------------------------------------------------------------------
  // Cascade sets

  /** The concatenation of the id lists stored under each of `keys`, in
    * order: the threads a user's projects list, for instance. */
  function Children(idx: map<Id, seq<Id>>, keys: seq<Id>): seq<Id>
  {
    if keys == [] then [] else Children(idx, keys[..|keys| - 1]) + Lookup(idx, keys[|keys| - 1])
  }

  /** The ids listed under any of `keys`, as a set. */
  function ChildSet(idx: map<Id, seq<Id>>, keys: seq<Id>): set<Id>
  {
    Elems(Children(idx, keys))
  }

  /** An id is among the children exactly when one of the keys lists it. */
  lemma {:induction false} ChildrenMembers(idx: map<Id, seq<Id>>, keys: seq<Id>, x: Id)
    ensures x in Children(idx, keys) <==> exists i :: 0 <= i < |keys| && x in Lookup(idx, keys[i])
  {
    if keys != [] {
      var init := keys[..|keys| - 1];
      ChildrenMembers(idx, init, x);
      assert forall i :: 0 <= i < |init| ==> init[i] == keys[i];
    }
  }

  lemma ChildrenSnoc(idx: map<Id, seq<Id>>, keys: seq<Id>, k: Id)
    ensures Children(idx, keys + [k]) == Children(idx, keys) + Lookup(idx, k)
  {
    assert (keys + [k])[..|keys|] == keys;
  }

  // ---------------------------------------------------------------------
  // Well-formedness: no dangling index entries

  /** Every id listed under a user names a project of that user. */
  ghost predicate ProjectIndexSound(s: Tables)
  {
    forall u, p :: u in s.projectIdsByUserId && p in s.projectIdsByUserId[u] ==>
      p in s.projectsById && s.projectsById[p].userId == u
  }

  /** Every id listed under a project names a thread of that project. */
  ghost predicate ThreadIndexSound(s: Tables)
  {
    forall q, t :: q in s.threadIdsByProjectId && t in s.threadIdsByProjectId[q] ==>
      t in s.threadsById && s.threadsById[t].projectId == q
  }

  /** Every id listed under a thread names a message of that thread. */
  ghost predicate MessageIndexSound(s: Tables)
  {
    forall t, m :: t in s.messageIdsByThreadId && m in s.messageIdsByThreadId[t] ==>
      m in s.messagesById && s.messagesById[m].threadId == t
  }

  /** Every record is stored under its own id. */
  ghost predicate KeysAreIds(s: Tables)
  {
    (forall k :: k in s.usersById ==> s.usersById[k].id == k)
    && (forall k :: k in s.projectsById ==> s.projectsById[k].id == k)
    && (forall k :: k in s.threadsById ==> s.threadsById[k].id == k)
    && (forall k :: k in s.messagesById ==> s.messagesById[k].id == k)
  }

  ghost predicate Valid(s: Tables)
  {
    ProjectIndexSound(s) && ThreadIndexSound(s) && MessageIndexSound(s) && KeysAreIds(s)
  }

  // ---------------------------------------------------------------------
  // Actions

  /** `setInitial`: every table empty, nothing selected, counters at 0. */
  function Initial(): (r: Tables)
    ensures Valid(r)
    ensures r.usersById == map[] && r.projectsById == map[] && r.threadsById == map[] && r.messagesById == map[]
    ensures r.selectedProjectId.None? && r.selectedThreadId.None?
    ensures r.projectCounter == 0 && r.threadCounter == 0 && r.messageCounter == 0
  {
    Tables(map[], map[], map[], map[], map[], map[], map[], None, None, 0, 0, 0)
  }

  /** `getLoginUser`. */
  function GetLoginUser(s: Tables, userId: Id): (r: Option<User>)
    ensures r.Some? <==> userId in s.usersById
    ensures r.Some? ==> r.value == s.usersById[userId]
  {
    if userId in s.usersById then Some(s.usersById[userId]) else None
  }

  /** `updateUser`: renames a known user and stamps it; otherwise a no-op. */
  function UpdateUser(s: Tables, id: Id, userName: string, now: string): (r: Tables)
    ensures r.usersById.Keys == s.usersById.Keys
    ensures id in s.usersById ==> r.usersById[id] == s.usersById[id].(name := userName, updatedAt := now)
    ensures forall k :: k in s.usersById && k != id ==> r.usersById[k] == s.usersById[k]
    ensures r.(usersById := s.usersById) == s
  {
    if id !in s.usersById then s
    else s.(usersById := s.usersById[id := s.usersById[id].(name := userName, updatedAt := now)])
  }

  /** `createUser`: the new user's id is one more than the number of users.
    * After a deletion that id can already be taken, and the user holding it
    * is then replaced (see `CreateUserReplaces`). */
  function CreateUser(s: Tables, userName: string, now: string): (r: Tables)
    ensures var id := IdOf(|s.usersById| + 1);
      && r.usersById == s.usersById[id := User(id, userName, now)]
      && forall k :: k != id ==> (k in r.usersById <==> k in s.usersById)
    ensures r.(usersById := s.usersById) == s
  {
    var id := IdOf(|s.usersById| + 1);
    s.(usersById := s.usersById[id := User(id, userName, now)])
  }

  /** As written: when the counted id is already taken, no user is added
    * and the one holding the id is overwritten. */
  lemma CreateUserReplaces(s: Tables, userName: string, now: string)
    requires IdOf(|s.usersById| + 1) in s.usersById
    ensures |CreateUser(s, userName, now).usersById| == |s.usersById|
    ensures CreateUser(s, userName, now).usersById.Keys == s.usersById.Keys
  {
  }

  /** The situation arises with two users after the first is deleted: the
    * next user is again given id "2". */
  lemma SecondUserOverwritten(u: User, userName: string, now: string)
    ensures var s := Tables(map["2" := u], map[], map[], map[], map[], map[], map[], None, None, 0, 0, 0);
      && IdOf(|s.usersById| + 1) == "2"
      && CreateUser(s, userName, now).usersById == map["2" := User("2", userName, now)]
  {
    assert NatToString(2) == [DigitChar(2)];
  }

  /** Distinct counters give distinct ids. */
  lemma IdOfDistinct(m: nat, n: nat)
    requires m != n
    ensures IdOf(m) != IdOf(n)
  {
    if IdOf(m) == IdOf(n) {
      NatToStringInjective(m, n);
    }
  }

  /** The first number from `n` on whose id is not in `keys`. */
  function FreshFrom(keys: set<Id>, n: nat): (m: nat)
    ensures m >= n && IdOf(m) !in keys
    ensures forall k :: n <= k < m ==> IdOf(k) in keys
    decreases |keys|
  {
    if IdOf(n) !in keys then n
    else
      var m := FreshFrom(keys - {IdOf(n)}, n + 1);
      IdOfDistinct(m, n);
      m
  }

  /** `createUser` as evidently intended: the first free id from one more
    * than the number of users, so every existing user stays and exactly one
    * user is added. */
  function CreateUserFresh(s: Tables, userName: string, now: string): (r: Tables)
    ensures exists id :: id !in s.usersById && r.usersById == s.usersById[id := User(id, userName, now)]
    ensures |r.usersById| == |s.usersById| + 1
    ensures forall k :: k in s.usersById ==> k in r.usersById && r.usersById[k] == s.usersById[k]
    ensures !(IdOf(|s.usersById| + 1) in s.usersById) ==> r == CreateUser(s, userName, now)
    ensures r.(usersById := s.usersById) == s
  {
    var id := IdOf(FreshFrom(s.usersById.Keys, |s.usersById| + 1));
    s.(usersById := s.usersById[id := User(id, userName, now)])
  }

  /** `deleteUser`, declaratively: the user, the projects it lists, the
    * threads those projects list and the messages those threads list all
    * disappear, together with the index lists keyed by them. */
  function DeleteUser(s: Tables, id: Id): (r: Tables)
    ensures id !in s.usersById ==> r == s
    ensures id in s.usersById ==>
      var pids := Lookup(s.projectIdsByUserId, id);
      var tids := Children(s.threadIdsByProjectId, pids);
      && id !in r.usersById && id !in r.projectIdsByUserId
      && (forall p :: p in pids ==> p !in r.projectsById && p !in r.threadIdsByProjectId)
      && (forall t :: t in tids ==> t !in r.threadsById && t !in r.messageIdsByThreadId)
      && (forall m :: m in ChildSet(s.messageIdsByThreadId, tids) ==> m !in r.messagesById)
      && (forall k :: k in s.projectsById && k !in pids ==> k in r.projectsById && r.projectsById[k] == s.projectsById[k])
      && (forall k :: k in s.threadsById && k !in tids ==> k in r.threadsById && r.threadsById[k] == s.threadsById[k])
      && (r.selectedProjectId.Some? ==> r.selectedProjectId.value !in pids)
      && (r.selectedThreadId.Some? <==> Truthy(s.selectedThreadId) && s.selectedThreadId.value in r.threadsById)
      && (r.selectedThreadId.Some? ==> r.selectedThreadId == s.selectedThreadId)
    ensures r.projectCounter == s.projectCounter && r.threadCounter == s.threadCounter
    ensures r.messageCounter == s.messageCounter
  {
    if id !in s.usersById then s
    else
      var pids := Lookup(s.projectIdsByUserId, id);
      var tids := Children(s.threadIdsByProjectId, pids);
      var threads := s.threadsById - Elems(tids);
      s.(usersById := s.usersById - {id},
         projectsById := s.projectsById - Elems(pids),
         projectIdsByUserId := s.projectIdsByUserId - {id},
         threadsById := threads,
         threadIdsByProjectId := s.threadIdsByProjectId - Elems(pids),
         messagesById := s.messagesById - ChildSet(s.messageIdsByThreadId, tids),
         messageIdsByThreadId := s.messageIdsByThreadId - Elems(tids),
         selectedProjectId :=
           if s.selectedProjectId.Some? && s.selectedProjectId.value in pids then None else s.selectedProjectId,
         selectedThreadId :=
           if Truthy(s.selectedThreadId) && s.selectedThreadId.value in threads then s.selectedThreadId else None)
  }

  /** Everything `deleteUser` does not cascade to is kept: the other users,
    * the other owners' project lists, the thread lists of the surviving
    * projects, the message lists of the surviving threads and every message
    * those threads list, and a selected project that was not deleted. */
  lemma DeleteUserKeeps(s: Tables, id: Id)
    requires id in s.usersById
    ensures var r := DeleteUser(s, id);
      var pids := Lookup(s.projectIdsByUserId, id);
      var tids := Children(s.threadIdsByProjectId, pids);
      && (forall k :: k in s.usersById && k != id ==> k in r.usersById && r.usersById[k] == s.usersById[k])
      && (forall u :: u != id ==> Lookup(r.projectIdsByUserId, u) == Lookup(s.projectIdsByUserId, u))
      && (forall q :: q !in pids ==> Lookup(r.threadIdsByProjectId, q) == Lookup(s.threadIdsByProjectId, q))
      && (forall t :: t !in tids ==> Lookup(r.messageIdsByThreadId, t) == Lookup(s.messageIdsByThreadId, t))
      && (forall k :: k in s.messagesById && k !in ChildSet(s.messageIdsByThreadId, tids) ==>
            k in r.messagesById && r.messagesById[k] == s.messagesById[k])
      && (s.selectedProjectId.Some? && s.selectedProjectId.value !in pids ==> r.selectedProjectId == s.selectedProjectId)
  {
  }

  /** `createProject`: the id is the counter's value, the counter moves on
    * by one, and the id heads the owner's list. */
  function CreateProject(s: Tables, name: string, userId: Id, overview: Option<string>, now: string): (r: Tables)
    ensures var id := IdOf(s.projectCounter);
      && r.projectsById == s.projectsById[id := Project(id, name, userId, overview, now, now)]
      && Lookup(r.projectIdsByUserId, userId) == PushUnique(Lookup(s.projectIdsByUserId, userId), id)
      && id in Lookup(r.projectIdsByUserId, userId)
    ensures forall u :: u != userId ==> Lookup(r.projectIdsByUserId, u) == Lookup(s.projectIdsByUserId, u)
    ensures r.projectCounter == s.projectCounter + 1
    ensures r.(projectsById := s.projectsById, projectIdsByUserId := s.projectIdsByUserId,
               projectCounter := s.projectCounter) == s
  {
    var id := IdOf(s.projectCounter);
    s.(projectsById := s.projectsById[id := Project(id, name, userId, overview, now, now)],
       projectIdsByUserId := s.projectIdsByUserId[userId := PushUnique(Lookup(s.projectIdsByUserId, userId), id)],
       projectCounter := s.projectCounter + 1)
  }

  /** `getProjectByUserId`. */
  function GetProjectByUserId(s: Tables, userId: Id): (r: seq<Project>)
    ensures |r| <= |Lookup(s.projectIdsByUserId, userId)|
  {
    Resolve(s.projectsById, Lookup(s.projectIdsByUserId, userId))
  }

  /** `updateProject`: a known project gets the new name and overview (an
    * absent overview erases the old one) and a new timestamp. */
  function UpdateProject(s: Tables, id: Id, name: string, overview: Option<string>, now: string): (r: Tables)
    ensures r.projectsById.Keys == s.projectsById.Keys
    ensures id in s.projectsById ==>
      r.projectsById[id] == s.projectsById[id].(name := name, overview := overview, updatedAt := now)
    ensures forall k :: k in s.projectsById && k != id ==> r.projectsById[k] == s.projectsById[k]
    ensures r.(projectsById := s.projectsById) == s
  {
    if id !in s.projectsById then s
    else s.(projectsById := s.projectsById[id := s.projectsById[id].(name := name, overview := overview, updatedAt := now)])
  }

  /** `deleteProject`, declaratively. */
  function DeleteProject(s: Tables, projectId: Id): (r: Tables)
    ensures projectId !in s.projectsById ==> r == s
    ensures projectId in s.projectsById ==>
      var owner := s.projectsById[projectId].userId;
      var tids := Lookup(s.threadIdsByProjectId, projectId);
      && projectId !in r.projectsById && projectId !in r.threadIdsByProjectId
      && Lookup(r.projectIdsByUserId, owner) == RemoveId(Lookup(s.projectIdsByUserId, owner), projectId)
      && (forall t :: t in tids ==> t !in r.threadsById && t !in r.messageIdsByThreadId)
      && (forall m :: m in ChildSet(s.messageIdsByThreadId, tids) ==> m !in r.messagesById)
      && (forall u :: u != owner ==> Lookup(r.projectIdsByUserId, u) == Lookup(s.projectIdsByUserId, u))
      && (forall k :: k in s.threadsById && k !in tids ==> k in r.threadsById && r.threadsById[k] == s.threadsById[k])
      && r.usersById == s.usersById
      && (r.selectedProjectId.None? <==> s.selectedProjectId.None? || s.selectedProjectId == Some(projectId))
      && (r.selectedProjectId.Some? ==> r.selectedProjectId == s.selectedProjectId)
      && (r.selectedThreadId.Some? ==> r.selectedThreadId == s.selectedThreadId)
      && (r.selectedThreadId.None? <==>
            s.selectedThreadId.None? || (Truthy(s.selectedThreadId) && s.selectedThreadId.value in tids))
    ensures r.projectCounter == s.projectCounter && r.threadCounter == s.threadCounter
    ensures r.messageCounter == s.messageCounter
  {
    if projectId !in s.projectsById then s
    else
      var p := s.projectsById[projectId];
      var tids := Lookup(s.threadIdsByProjectId, projectId);
      s.(projectsById := s.projectsById - {projectId},
         projectIdsByUserId := s.projectIdsByUserId[p.userId := RemoveId(Lookup(s.projectIdsByUserId, p.userId), projectId)],
         threadsById := s.threadsById - Elems(tids),
         threadIdsByProjectId := s.threadIdsByProjectId - {projectId},
         messagesById := s.messagesById - ChildSet(s.messageIdsByThreadId, tids),
         messageIdsByThreadId := s.messageIdsByThreadId - Elems(tids),
         selectedProjectId := if s.selectedProjectId == Some(projectId) then None else s.selectedProjectId,
         selectedThreadId :=
           if Truthy(s.selectedThreadId) && s.selectedThreadId.value in tids then None else s.selectedThreadId)
  }

  /** Everything `deleteProject` does not cascade to is kept: the other
    * projects, the thread lists of the other projects, the message lists
    * of the surviving threads and every message those threads list. */
  lemma DeleteProjectKeeps(s: Tables, projectId: Id)
    requires projectId in s.projectsById
    ensures var r := DeleteProject(s, projectId);
      var tids := Lookup(s.threadIdsByProjectId, projectId);
      && (forall k :: k in s.projectsById && k != projectId ==> k in r.projectsById && r.projectsById[k] == s.projectsById[k])
      && (forall q :: q != projectId ==> Lookup(r.threadIdsByProjectId, q) == Lookup(s.threadIdsByProjectId, q))
      && (forall t :: t !in tids ==> Lookup(r.messageIdsByThreadId, t) == Lookup(s.messageIdsByThreadId, t))
      && (forall k :: k in s.messagesById && k !in ChildSet(s.messageIdsByThreadId, tids) ==>
            k in r.messagesById && r.messagesById[k] == s.messagesById[k])
  {
  }

  /** `createThread`: like `createProject`, and the new thread and its
    * project become the selection. */
  function CreateThread(s: Tables, name: string, projectId: Id, now: string): (r: Tables)
    ensures var id := IdOf(s.threadCounter);
      && r.threadsById == s.threadsById[id := Thread(id, name, projectId, now, now)]
      && Lookup(r.threadIdsByProjectId, projectId) == PushUnique(Lookup(s.threadIdsByProjectId, projectId), id)
      && r.selectedThreadId == Some(id) && r.selectedProjectId == Some(projectId)
    ensures forall q :: q != projectId ==> Lookup(r.threadIdsByProjectId, q) == Lookup(s.threadIdsByProjectId, q)
    ensures r.threadCounter == s.threadCounter + 1
    ensures r.(threadsById := s.threadsById, threadIdsByProjectId := s.threadIdsByProjectId,
               selectedThreadId := s.selectedThreadId, selectedProjectId := s.selectedProjectId,
               threadCounter := s.threadCounter) == s
  {
    var id := IdOf(s.threadCounter);
    s.(threadsById := s.threadsById[id := Thread(id, name, projectId, now, now)],
       threadIdsByProjectId := s.threadIdsByProjectId[projectId := PushUnique(Lookup(s.threadIdsByProjectId, projectId), id)],
       selectedThreadId := Some(id),
       selectedProjectId := Some(projectId),
       threadCounter := s.threadCounter + 1)
  }

  /** `getThreadsByProjectId`. */
  function GetThreadsByProjectId(s: Tables, projectId: Id): (r: seq<Thread>)
    ensures |r| <= |Lookup(s.threadIdsByProjectId, projectId)|
  {
    Resolve(s.threadsById, Lookup(s.threadIdsByProjectId, projectId))
  }

  /** `updateThread`: renames a known thread and stamps it. */
  function UpdateThread(s: Tables, id: Id, name: string, now: string): (r: Tables)
    ensures r.threadsById.Keys == s.threadsById.Keys
    ensures id in s.threadsById ==> r.threadsById[id] == s.threadsById[id].(name := name, updatedAt := now)
    ensures forall k :: k in s.threadsById && k != id ==> r.threadsById[k] == s.threadsById[k]
    ensures r.(threadsById := s.threadsById) == s
  {
    if id !in s.threadsById then s
    else s.(threadsById := s.threadsById[id := s.threadsById[id].(name := name, updatedAt := now)])
  }

  /** `deleteThread`, declaratively. When no project was selected, the
    * deleted thread's project becomes the selected one. */
  function DeleteThread(s: Tables, threadId: Id): (r: Tables)
    ensures threadId !in s.threadsById ==> r == s
    ensures threadId in s.threadsById ==>
      var pid := s.threadsById[threadId].projectId;
      var mids := Lookup(s.messageIdsByThreadId, threadId);
      && threadId !in r.threadsById && threadId !in r.messageIdsByThreadId
      && Lookup(r.threadIdsByProjectId, pid) == RemoveId(Lookup(s.threadIdsByProjectId, pid), threadId)
      && (forall k :: k in s.threadsById && k != threadId ==> k in r.threadsById && r.threadsById[k] == s.threadsById[k])
      && (forall m :: m in mids ==> m !in r.messagesById)
      && (forall k :: k in s.messagesById && k !in mids ==> k in r.messagesById && r.messagesById[k] == s.messagesById[k])
      && (forall q :: q != pid ==> Lookup(r.threadIdsByProjectId, q) == Lookup(s.threadIdsByProjectId, q))
      && (forall t :: t != threadId ==> Lookup(r.messageIdsByThreadId, t) == Lookup(s.messageIdsByThreadId, t))
      && (r.selectedThreadId.None? <==> s.selectedThreadId.None? || s.selectedThreadId == Some(threadId))
      && (r.selectedThreadId.Some? ==> r.selectedThreadId == s.selectedThreadId)
      && r.selectedProjectId == (if s.selectedProjectId.Some? then s.selectedProjectId else Some(pid))
      && r.projectsById == s.projectsById && r.usersById == s.usersById
      && r.projectIdsByUserId == s.projectIdsByUserId
    ensures r.projectCounter == s.projectCounter && r.threadCounter == s.threadCounter
    ensures r.messageCounter == s.messageCounter
  {
    if threadId !in s.threadsById then s
    else
      var pid := s.threadsById[threadId].projectId;
      var mids := Lookup(s.messageIdsByThreadId, threadId);
      s.(threadsById := s.threadsById - {threadId},
         threadIdsByProjectId := s.threadIdsByProjectId[pid := RemoveId(Lookup(s.threadIdsByProjectId, pid), threadId)],
         messagesById := s.messagesById - Elems(mids),
         messageIdsByThreadId := s.messageIdsByThreadId - {threadId},
         selectedThreadId := if s.selectedThreadId == Some(threadId) then None else s.selectedThreadId,
         selectedProjectId := if s.selectedProjectId.Some? then s.selectedProjectId else Some(pid))
  }

  /** `selectThread`: "" clears the thread selection only; any other id is
    * selected, and the project follows it when the thread is known. */
  function SelectThread(s: Tables, threadId: Id): (r: Tables)
    ensures threadId == "" ==> r == s.(selectedThreadId := None)
    ensures threadId != "" ==> r.selectedThreadId == Some(threadId)
    ensures threadId != "" && threadId in s.threadsById ==>
      r.selectedProjectId == Some(s.threadsById[threadId].projectId)
    ensures threadId !in s.threadsById ==> r.selectedProjectId == s.selectedProjectId
    ensures r.(selectedThreadId := s.selectedThreadId, selectedProjectId := s.selectedProjectId) == s
  {
    if threadId == "" then s.(selectedThreadId := None)
    else
      s.(selectedThreadId := Some(threadId),
         selectedProjectId := if threadId in s.threadsById then Some(s.threadsById[threadId].projectId) else s.selectedProjectId)
  }

  /** `createMessage`: the id is the counter's value and it goes to the
    * tail of the thread's list. */
  function CreateMessage(s: Tables, content: string, threadId: Id, role: Role, now: string): (r: Tables)
    ensures var id := IdOf(s.messageCounter);
      && r.messagesById == s.messagesById[id := Message(id, content, threadId, role, now)]
      && Lookup(r.messageIdsByThreadId, threadId) == Lookup(s.messageIdsByThreadId, threadId) + [id]
    ensures forall t :: t != threadId ==> Lookup(r.messageIdsByThreadId, t) == Lookup(s.messageIdsByThreadId, t)
    ensures r.messageCounter == s.messageCounter + 1
    ensures r.(messagesById := s.messagesById, messageIdsByThreadId := s.messageIdsByThreadId,
               messageCounter := s.messageCounter) == s
  {
    var id := IdOf(s.messageCounter);
    s.(messagesById := s.messagesById[id := Message(id, content, threadId, role, now)],
       messageIdsByThreadId := s.messageIdsByThreadId[threadId := Lookup(s.messageIdsByThreadId, threadId) + [id]],
       messageCounter := s.messageCounter + 1)
  }

  /** `getMessagesByThreadId`. */
  function GetMessagesByThreadId(s: Tables, threadId: Id): (r: seq<Message>)
    ensures |r| <= |Lookup(s.messageIdsByThreadId, threadId)|
  {
    Resolve(s.messagesById, Lookup(s.messageIdsByThreadId, threadId))
  }

  /** `updateMessage`: replaces a known message's content only. */
  function UpdateMessage(s: Tables, id: Id, content: string): (r: Tables)
    ensures r.messagesById.Keys == s.messagesById.Keys
    ensures id in s.messagesById ==> r.messagesById[id] == s.messagesById[id].(content := content)
    ensures forall k :: k in s.messagesById && k != id ==> r.messagesById[k] == s.messagesById[k]
    ensures r.(messagesById := s.messagesById) == s
  {
    if id !in s.messagesById then s
    else s.(messagesById := s.messagesById[id := s.messagesById[id].(content := content)])
  }

  /** `deleteMessage`: the record goes, and so does its id in its thread's list. */
  function DeleteMessage(s: Tables, messageId: Id): (r: Tables)
    ensures messageId !in s.messagesById ==> r == s
    ensures messageId in s.messagesById ==>
      var tid := s.messagesById[messageId].threadId;
      && r.messagesById == s.messagesById - {messageId}
      && messageId !in Lookup(r.messageIdsByThreadId, tid)
      && Elems(Lookup(r.messageIdsByThreadId, tid)) == Elems(Lookup(s.messageIdsByThreadId, tid)) - {messageId}
      && Lookup(r.messageIdsByThreadId, tid) == RemoveId(Lookup(s.messageIdsByThreadId, tid), messageId)
      && (forall t :: t != tid ==> Lookup(r.messageIdsByThreadId, t) == Lookup(s.messageIdsByThreadId, t))
    ensures r.(messagesById := s.messagesById, messageIdsByThreadId := s.messageIdsByThreadId) == s
  {
    if messageId !in s.messagesById then s
    else
      var tid := s.messagesById[messageId].threadId;
      s.(messagesById := s.messagesById - {messageId},
         messageIdsByThreadId := s.messageIdsByThreadId[tid := RemoveId(Lookup(s.messageIdsByThreadId, tid), messageId)])
  }
}
