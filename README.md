# A verified model of the chat data layer and stream protocol of public_AI_APP

public_AI_APP is a retrieval-augmented chat application. Its frontend (Next.js, TypeScript) keeps a
normalised store of users, projects, threads and messages. It changes that store optimistically
before each server call and rolls it back when the call fails. It queues attachments for upload and
sends chat turns. Its backend (FastAPI, Python) streams the model's answer to the browser as
server-sent events (section 9.2 of the WHATWG HTML Living Standard). While streaming it saves drafts
of the answer, and it ingests uploaded documents into a vector store. A handful of routers guard
sessions, roles and the database calls.

This project states that behaviour in Dafny and proves properties of it. Each core source file
becomes one module, in the form the source itself takes:

- **Store** (`entity_store.dfy`, `store.dfy`, `store_invariants.dfy`):
  - The store's tables form a value, and every reducer of `store/state.ts` is a function on it.
  - The store itself is the class `ChatStore.Store`. Its actions update its fields and are proved equal to those functions.
  - The cascading deletes are nested loops, proved against a declarative description of what disappears.
  - The lemmas prove that every action keeps the indexes free of dangling ids, and that lists keep their order.
- **Hooks** (`optimistic.dfy`, `threads_hook.dfy`, `projects_hook.dfy`, `messages_hook.dfy`):
  - The three hooks are classes that hold the store.
  - Each server call is an input: its answer or its failure.
  - Each method states the store it leaves behind for every outcome: the temporary record swapped in place, the snapshot restored, or a "not found" delete accepted.
- **Uploads and sending** (`attachments.dfy`, `upload.dfy`, `chat_page.dfy`):
  - The attachment queue is bounded and has a per-entry status.
  - The upload loop keeps going past failures.
  - `handleSend` saves the user's message before it builds the history it sends.
- **Event stream** (`sse.dfy`, `utf8.dfy`, `context.dfy`, `chat_router.dfy`, `rag_chat.dfy`):
  - This covers JSON text as `json.dumps` writes it, the frame of one event, the filter that drops `None` items, and the formatted retrieval context.
  - It also covers the whole event protocol of `run_rag_chat`. Every I/O step (ingestion, the readiness poll, the vector search, the language model, the database writes) is an input, and the generator is a sequence of steps over those inputs.
  - One consequence is proved: `sse` returns `None` for a string payload and the stream filter drops it, so the closing `done` event never reaches the client (`RagChat.WireOfClosed`).
  - `run_rag_chat` is itself an async generator, so its "no user message found" 400 is raised only after the 200 response has started: the client sees a stream cut off before its first frame (`RagChat.RunRagChat`).
  - The body is described with the corrected framing of the first finding below. `RagChat.ItemsAsWritten` is the framing as written, and `RagChat.ItemsAsWrittenAgree` proves both give the same body whenever no JSON text holds U+0085, U+2028 or U+2029.
- **Ingestion** (`ingest_document.dfy`, `ingest_sync.dfy`): type guessing, control-character scrubbing, front-matter stripping, extractor dispatch, chunk numbering and batched inserts.
- **Backend guards** (`deps.dfy`, `files_router.dfy`, `auth_router.dfy`, `admin_router.dfy`, `postgrest_calls.dfy`, `threads_router.dfy`, `projects_router.dfy`): token extraction (section 2.1 of RFC 6750), cookie settings, the session refresh, the role rules and the status codes of the CRUD endpoints.
- **Frontend utilities** (`middleware.dfy`, `uri.dfy`, `search_params.dfy`, `backend_client.dfy`, `file_route.dfy`, `stable_sort.dfy`, `admin_page.dfy`, `files_page.dfy`): the login gate and its `next` redirect, `encodeURIComponent`, `URLSearchParams`, the fetch helpers, the file proxy, and the logic of the admin and file pages.

`wrappers.dfy` and `text.dfy` hold the shared `Option`/`Result` types and the string helpers.

## Model

| member | source | states |
|---|---|---|
| EntityStore.PushUnique | frontend_app/store/state.ts:108-111 | an id already listed leaves the list unchanged, a new one is prepended; the set of ids gains exactly that id and a duplicate-free list stays duplicate-free |
| EntityStore.RemoveId | frontend_app/store/state.ts:113-116 | the id no longer occurs, the other ids are kept, and a list without it is returned unchanged |
| EntityStore.RemoveIdConcat | frontend_app/store/state.ts:113-116 | removal distributes over concatenation, so the remaining ids keep their relative order |
| EntityStore.RemoveIdNoDup | frontend_app/store/state.ts:113-116 | removing an id keeps a duplicate-free list duplicate-free |
| EntityStore.Resolve | frontend_app/store/state.ts:245-250 | the records named by a list of ids, dropping ids without a record: never longer than the list, empty when no id is stored, one record per id when all are |
| EntityStore.ResolveUpdateOther | frontend_app/store/state.ts:245-250 | storing a record under an id the list does not name leaves the resolved records unchanged |
| EntityStore.ResolveConcat | frontend_app/store/state.ts:245-250 | resolving a concatenation is the concatenation of the resolved parts |
| EntityStore.ChildrenMembers | frontend_app/store/state.ts:170-221 | an id is among the children of some keys exactly when one of those keys lists it (the cascade of a delete) |
| EntityStore.Initial | frontend_app/store/state.ts:136-149 | every table empty, no selection, all three counters at 0, and the index invariant holds |
| EntityStore.GetLoginUser | frontend_app/store/state.ts:152 | a user is returned exactly when the id is stored, and it is the stored record |
| EntityStore.UpdateUser | frontend_app/store/state.ts:154-161 | the same users exist; a known user gets the new name and time stamp, every other user and every other table is untouched |
| EntityStore.CreateUser | frontend_app/store/state.ts:163-168 | the user table becomes the old one with String(number of users + 1) set to the new user, with the given name and time; no other user is added or removed and no other table changes |
| EntityStore.CreateUserReplaces | frontend_app/store/state.ts:165-167 | as written, when the counted id is already taken no user is added: the table keeps its ids and its size |
| EntityStore.SecondUserOverwritten | frontend_app/store/state.ts:165-167 | as written, with only user "2" left after "1" was deleted, the next user is given id "2" and replaces it |
| EntityStore.CreateUserFresh | frontend_app/store/state.ts:163-168 | corrected: the new user gets an id no user holds, every existing user stays as it was, the table grows by one, and the result is createUser's whenever the counted id is free |
| EntityStore.DeleteUser | frontend_app/store/state.ts:170-221 | an unknown user is a no-op; otherwise the user, its projects, their threads and those threads' messages and index lists all disappear while every other project and thread is kept; the selected project is never a deleted one and the thread selection survives only when it was truthy and its thread still exists; counters unchanged |
| EntityStore.DeleteUserKeeps | frontend_app/store/state.ts:170-221 | whatever the cascade does not reach is kept: the other users, the other owners' project lists, the thread lists of surviving projects, the message lists of surviving threads, every message they list, and a selected project that was not deleted |
| EntityStore.CreateProject | frontend_app/store/state.ts:224-243 | the new project is stored under the counter's value and listed under its owner, other owners' lists are unchanged, the counter moves on by one and nothing else changes |
| EntityStore.GetProjectByUserId | frontend_app/store/state.ts:245-250 | at most one project per id listed under the user |
| EntityStore.UpdateProject | frontend_app/store/state.ts:252-262 | the same projects exist; a known project gets the new name, overview and time stamp; everything else is untouched |
| EntityStore.DeleteProject | frontend_app/store/state.ts:264-309 | an unknown project is a no-op; otherwise the project, its threads and their messages disappear and it leaves its owner's list, the rest of that list in order; other owners' lists and other threads are kept, users are untouched, the project selection clears only when it was this project and is otherwise unchanged, and the thread selection clears exactly when it was unset or one of the deleted threads |
| EntityStore.DeleteProjectKeeps | frontend_app/store/state.ts:264-309 | whatever the cascade does not reach is kept: the other projects, the other projects' thread lists, the message lists of surviving threads and every message they list |
| EntityStore.CreateThread | frontend_app/store/state.ts:311-331 | the new thread is stored under the counter's value and listed under its project, other projects' lists are unchanged, the counter moves on by one and nothing else changes |
| EntityStore.GetThreadsByProjectId | frontend_app/store/state.ts:333-338 | at most one thread per id listed under the project |
| EntityStore.UpdateThread | frontend_app/store/state.ts:340-350 | the same threads exist; a known thread gets the new name and time stamp; everything else is untouched |
| EntityStore.DeleteThread | frontend_app/store/state.ts:352-384 | an unknown thread is a no-op; otherwise the thread and its messages disappear and it leaves its project's list (the rest of that list in order); every other thread, message, thread list and message list is kept, users, projects and their lists are untouched, the thread selection clears exactly when it was unset or this thread and is otherwise unchanged, an unset project selection becomes the thread's project, and the counters are unchanged |
| EntityStore.SelectThread | frontend_app/store/state.ts:387-396 | "" clears only the thread selection; another id becomes the selected thread and, when the thread is known, its project becomes the selected project; nothing else changes |
| EntityStore.CreateMessage | frontend_app/store/state.ts:399-417 | the new message is stored under the counter's value and appended to its thread's list, other threads' lists are unchanged, the counter moves on by one and nothing else changes |
| EntityStore.GetMessagesByThreadId | frontend_app/store/state.ts:419-424 | at most one message per id listed under the thread |
| EntityStore.UpdateMessage | frontend_app/store/state.ts:426-433 | the same messages exist; a known message gets the new content only; everything else is untouched |
| EntityStore.DeleteMessage | frontend_app/store/state.ts:435-454 | an unknown message is a no-op; otherwise exactly that message goes, its thread's list becomes RemoveId of the old list (the other ids in their order), other threads' lists are unchanged and no other table changes |
| ChatStore.DeleteEach | frontend_app/store/state.ts:194 | deleting each listed key from a copy leaves the map minus exactly those keys |
| ChatStore.DeleteThreadsEach | frontend_app/store/state.ts:286-291 | the thread loop removes exactly the listed threads, their message lists and the messages those lists name |
| ChatStore.DeleteThreadReducer | frontend_app/store/state.ts:352-384 | the imperative reducer of deleteThread computes exactly EntityStore.DeleteThread |
| ChatStore.DeleteProjectReducer | frontend_app/store/state.ts:264-309 | the imperative reducer of deleteProject computes exactly EntityStore.DeleteProject |
| ChatStore.DeleteProjectsEach | frontend_app/store/state.ts:188-200 | the project loop of deleteUser removes exactly the listed projects, their threads, those threads' message lists and the messages they name |
| ChatStore.DeleteUserReducer | frontend_app/store/state.ts:170-221 | the imperative reducer of deleteUser computes exactly EntityStore.DeleteUser |
| ChatStore.Store.constructor | frontend_app/store/state.ts:119-132 | the store starts in the initial state |
| ChatStore.Store.SetState | frontend_app/store/state.ts:119 | replacing the whole state (the rollback the hooks perform) leaves exactly the given state |
| ChatStore.Store.SetInitial | frontend_app/store/state.ts:136-149 | the state becomes the initial one |
| ChatStore.Store.UpdateUser | frontend_app/store/state.ts:154-161 | the new state is EntityStore.UpdateUser of the old one |
| ChatStore.Store.CreateUser | frontend_app/store/state.ts:163-168 | the new state is EntityStore.CreateUser of the old one |
| ChatStore.Store.DeleteUser | frontend_app/store/state.ts:170-221 | the new state is EntityStore.DeleteUser of the old one |
| ChatStore.Store.CreateProject | frontend_app/store/state.ts:224-243 | the new state is EntityStore.CreateProject of the old one |
| ChatStore.Store.UpdateProject | frontend_app/store/state.ts:252-262 | the new state is EntityStore.UpdateProject of the old one |
| ChatStore.Store.DeleteProject | frontend_app/store/state.ts:264-309 | the new state is EntityStore.DeleteProject of the old one |
| ChatStore.Store.CreateThread | frontend_app/store/state.ts:311-331 | the new state is EntityStore.CreateThread of the old one |
| ChatStore.Store.UpdateThread | frontend_app/store/state.ts:340-350 | the new state is EntityStore.UpdateThread of the old one |
| ChatStore.Store.DeleteThread | frontend_app/store/state.ts:352-384 | the new state is EntityStore.DeleteThread of the old one |
| ChatStore.Store.SelectThread | frontend_app/store/state.ts:387-396 | the new state is EntityStore.SelectThread of the old one |
| ChatStore.Store.CreateMessage | frontend_app/store/state.ts:399-417 | the new state is EntityStore.CreateMessage of the old one |
| ChatStore.Store.UpdateMessage | frontend_app/store/state.ts:426-433 | the new state is EntityStore.UpdateMessage of the old one |
| ChatStore.Store.DeleteMessage | frontend_app/store/state.ts:435-454 | the new state is EntityStore.DeleteMessage of the old one |
| StoreInvariants.ThreadsInListOrder | frontend_app/store/state.ts:333-338 | on a well-formed store the threads of a project come back one per listed id, in list order |
| StoreInvariants.MessagesInListOrder | frontend_app/store/state.ts:419-424 | on a well-formed store the messages of a thread come back one per listed id, in list order |
| StoreInvariants.ProjectsInListOrder | frontend_app/store/state.ts:245-250 | on a well-formed store the projects of a user come back one per listed id, in list order |
| StoreInvariants.CreateThreadComesFirst | frontend_app/store/state.ts:311-331 | a new thread is listed first among its project's threads |
| StoreInvariants.CreateProjectComesFirst | frontend_app/store/state.ts:224-243 | a new project is listed first among its owner's projects |
| StoreInvariants.CreateMessageComesLast | frontend_app/store/state.ts:399-417 | a new message is listed last in its thread, so the history stays chronological |
| StoreInvariants.DeleteProjectIdempotent | frontend_app/store/state.ts:264-309 | deleting a project twice is the same as deleting it once |
| StoreInvariants.DeleteThreadIdempotent | frontend_app/store/state.ts:352-384 | deleting a thread twice is the same as deleting it once |
| StoreInvariants.DeleteUserIdempotent | frontend_app/store/state.ts:170-221 | deleting a user twice is the same as deleting it once |
| StoreInvariants.UpdateUserPreservesValid | frontend_app/store/state.ts:154-161 | renaming a user keeps every index list pointing at records of its owner |
| StoreInvariants.CreateUserPreservesValid | frontend_app/store/state.ts:163-168 | creating a user keeps the store well-formed |
| StoreInvariants.UpdateProjectPreservesValid | frontend_app/store/state.ts:252-262 | updating a project keeps the store well-formed |
| StoreInvariants.UpdateThreadPreservesValid | frontend_app/store/state.ts:340-350 | renaming a thread keeps the store well-formed |
| StoreInvariants.SelectThreadPreservesValid | frontend_app/store/state.ts:387-396 | selecting a thread keeps the store well-formed |
| StoreInvariants.UpdateMessagePreservesValid | frontend_app/store/state.ts:426-433 | editing a message keeps the store well-formed |
| StoreInvariants.CreateProjectPreservesValid | frontend_app/store/state.ts:224-243 | creating a project under a fresh id keeps the store well-formed |
| StoreInvariants.CreateThreadPreservesValid | frontend_app/store/state.ts:311-331 | creating a thread under a fresh id keeps the store well-formed |
| StoreInvariants.CreateMessagePreservesValid | frontend_app/store/state.ts:399-417 | creating a message under a fresh id keeps the store well-formed |
| StoreInvariants.DeleteMessagePreservesValid | frontend_app/store/state.ts:435-454 | deleting a message keeps the store well-formed |
| StoreInvariants.DeleteThreadPreservesValid | frontend_app/store/state.ts:352-384 | deleting a thread keeps the store well-formed: no list names a deleted record |
| StoreInvariants.DeleteProjectPreservesValid | frontend_app/store/state.ts:264-309 | deleting a project keeps the store well-formed: the cascade leaves no dangling id |
| StoreInvariants.DeleteUserPreservesValid | frontend_app/store/state.ts:170-221 | deleting a user keeps the store well-formed: the cascade leaves no dangling id |
| Optimistic.AsOne | frontend_app/hooks/useThreads.ts:32 | a reply yields a record exactly when it is one record or a non-empty array, and then it is that record or the array's first element |
| Optimistic.RowsOf | frontend_app/hooks/useThreads.ts:53 | an empty body has no rows, one record is a one-row list, an array is kept as it is |
| Optimistic.KeysOf | frontend_app/hooks/useThreads.ts:42 | one id per row, the i-th being the i-th row's id |
| Optimistic.Upsert | frontend_app/hooks/useThreads.ts:34-39 | the merged table holds the old keys plus every row's id, and entries no row names keep their old record |
| Optimistic.UpsertLastWins | frontend_app/hooks/useThreads.ts:38 | the record stored under an id is the last row carrying that id |
| Optimistic.UpsertThenResolve | frontend_app/hooks/useThreads.ts:34-44 | merging fetched rows with distinct ids and listing them by their ids gives back exactly those rows, in response order |
| Optimistic.FromRows | frontend_app/hooks/useThreads.ts:38 | a table built from rows alone holds exactly the rows' ids |
| Optimistic.ReplaceId | frontend_app/hooks/useThreads.ts:95-97 | the list keeps its length and every occurrence of the temporary id, and only those, becomes the server's id |
| Optimistic.ReplaceAbsent | frontend_app/hooks/useThreads.ts:95-97 | a list that does not hold the temporary id is left as it is |
| Optimistic.BenignNotFound | frontend_app/hooks/useThreads.ts:188 | any error text containing "not", white space, "found", in any letter case, is classified as benign |
| Optimistic.EmptyMessageNotBenign | frontend_app/hooks/useThreads.ts:186-188 | an error without a message is never benign |
| ThreadsHook.SetThreadsIntoStore | frontend_app/hooks/useThreads.ts:34-45 | the project's id list becomes the rows' ids in order, other projects' lists are unchanged, the rows are merged into the thread table keeping unrelated records, and nothing else changes |
| ThreadsHook.RefetchListsRows | frontend_app/hooks/useThreads.ts:34-45 | after the merge, the threads the hook lists for the project are exactly the fetched rows, in response order |
| ThreadsHook.Refetched | frontend_app/hooks/useThreads.ts:47-60 | no project, a failed listing or an empty body leave the store as it was; a record or an array is stored with SetThreadsIntoStore |
| ThreadsHook.FetchError | frontend_app/hooks/useThreads.ts:53-56 | an error is recorded exactly when the listing failed (its own message) or returned an empty body (the TypeError of reading an id) |
| ThreadsHook.InsertThread | frontend_app/hooks/useThreads.ts:76-84 | the optimistic record is stored, its id heads its project's list, other lists are unchanged and it becomes the selected thread of the selected project |
| ThreadsHook.SwapThread | frontend_app/hooks/useThreads.ts:90-105 | the temporary record gives way to the server's record, whose id takes the temporary id's place in the list; other records are kept and the new id is selected |
| ThreadsHook.AddThreadNetEffect | frontend_app/hooks/useThreads.ts:63-107 | a fresh temporary record followed by a successful create leaves the store as if the server's record had been inserted directly |
| ThreadsHook.DeleteThreadFields | frontend_app/hooks/useThreads.ts:149-179 | the hook's own field-by-field removal computes the same tables as the store's deleteThread |
| ThreadsHook.Hook.constructor | frontend_app/hooks/useThreads.ts:15-17 | the hook starts neither loading nor in error, on the given store and project |
| ThreadsHook.Hook.Refetch | frontend_app/hooks/useThreads.ts:47-60 | the store becomes Refetched of the old one; with a project, loading ends false and the error is FetchError; without one nothing changes |
| ThreadsHook.Hook.AddThread | frontend_app/hooks/useThreads.ts:63-113 | without a project it throws and changes nothing; a reply with a record leaves the store as if that record were inserted; a failure or an empty reply restores the snapshot and rethrows |
| ThreadsHook.Hook.EditThreadName | frontend_app/hooks/useThreads.ts:116-142 | an unknown thread changes nothing; success stores the server's record; a failure puts the prior record back, restoring the store, and rethrows |
| ThreadsHook.Hook.RemoveLocally | frontend_app/hooks/useThreads.ts:149-179 | the optimistic removal leaves exactly EntityStore.DeleteThread of the old store |
| ThreadsHook.Hook.RemoveThread | frontend_app/hooks/useThreads.ts:145-198 | a successful or benign delete reports success with the thread removed and the list refetched; any other error restores the snapshot and rethrows |
| ProjectsHook.NormalizeProject | frontend_app/hooks/useProjects.ts:21-24 | a null or missing overview becomes undefined and every other field is kept; normalizing nothing gives an object with no fields but overview |
| ProjectsHook.NormalizedRows | frontend_app/hooks/useProjects.ts:61 | an empty body gives one fieldless project, one record one normalized project, an array one normalized project per row in order |
| ProjectsHook.SetProjectsIntoStore | frontend_app/hooks/useProjects.ts:45-54 | the project table is replaced (not merged) by the rows, the user's list becomes their ids in order, other users' lists and all other tables are unchanged |
| ProjectsHook.RefetchReplacesProjects | frontend_app/hooks/useProjects.ts:45-54 | a refetch drops every project the listing lacks, even one another user's list still names, and the user's projects are then exactly the fetched rows in order |
| ProjectsHook.Refetched | frontend_app/hooks/useProjects.ts:56-68 | a failed listing leaves the store unchanged; otherwise the normalized rows replace the user's projects |
| ProjectsHook.InsertProject | frontend_app/hooks/useProjects.ts:84-94 | the optimistic record is stored and heads the user's list; other lists and the selection are untouched |
| ProjectsHook.SwapProject | frontend_app/hooks/useProjects.ts:99-110 | the server's record replaces the temporary one in the same list position; the selection is untouched |
| ProjectsHook.AddProjectNetEffect | frontend_app/hooks/useProjects.ts:71-112 | a fresh temporary record followed by a successful create leaves the store as if the server's record had been inserted directly |
| ProjectsHook.ApplyPatch | frontend_app/hooks/useProjects.ts:132 | id, owner and creation time are kept, name and overview are replaced only when the patch carries them, and the update time is now |
| ProjectsHook.RemoveProjectLocally | frontend_app/hooks/useProjects.ts:157-167 | only the record and its id in the current user's list go; everything else stays |
| ProjectsHook.RemoveProjectDoesNotCascade | frontend_app/hooks/useProjects.ts:157-167 | unlike the store's deleteProject, the optimistic removal leaves the project's threads in place |
| ProjectsHook.Hook.constructor | frontend_app/hooks/useProjects.ts:26-28 | the hook starts neither loading nor in error |
| ProjectsHook.Hook.Refetch | frontend_app/hooks/useProjects.ts:56-68 | the store becomes Refetched of the old one, loading ends false and the error is the listing's message or none |
| ProjectsHook.Hook.AddProject | frontend_app/hooks/useProjects.ts:71-118 | success leaves the store as if the normalized server record were inserted and returns it; failure restores the snapshot and rethrows |
| ProjectsHook.Hook.EditProject | frontend_app/hooks/useProjects.ts:121-150 | an unknown project changes nothing; success stores the normalized server record; failure puts the prior record back, restoring the store, and rethrows |
| ProjectsHook.Hook.RemoveProject | frontend_app/hooks/useProjects.ts:153-186 | a successful or benign delete reports success with the record removed and the list refetched; any other error restores the snapshot and rethrows |
| MessagesHook.SetMessagesIntoStore | frontend_app/hooks/useMessages.ts:36-47 | the thread's id list becomes the rows' ids in order, other threads' lists are unchanged, the rows are merged into the message table keeping unrelated records, and nothing else changes |
| MessagesHook.RefetchListsRows | frontend_app/hooks/useMessages.ts:36-47 | after the merge, the messages the hook lists for the thread are exactly the fetched rows, in response order |
| MessagesHook.Refetched | frontend_app/hooks/useMessages.ts:52-65 | no thread, a failed listing or an empty body leave the store as it was; otherwise the rows are merged in |
| MessagesHook.FetchError | frontend_app/hooks/useMessages.ts:56-61 | an error is recorded exactly when the listing failed (its own message) or returned an empty body |
| MessagesHook.AppendMessage | frontend_app/hooks/useMessages.ts:86-92 | the optimistic message is stored and its id goes to the tail of its thread's list; nothing else changes |
| MessagesHook.SwapMessage | frontend_app/hooks/useMessages.ts:106-118 | the server's record replaces the temporary one in the same list position |
| MessagesHook.SendMessageNetEffect | frontend_app/hooks/useMessages.ts:70-119 | a fresh temporary message followed by a successful create leaves the store as if the server's record had been appended directly, so the thread stays in sending order |
| MessagesHook.FallbackKeepsTmpRecord | frontend_app/hooks/useMessages.ts:99-102 | when the reply has no id the refetch drops the temporary id from the thread's list but its record stays in the message table |
| MessagesHook.Hook.constructor | frontend_app/hooks/useMessages.ts:15-17 | the hook starts neither loading nor in error |
| MessagesHook.Hook.Refetch | frontend_app/hooks/useMessages.ts:52-65 | the store becomes Refetched of the old one; with a thread, loading ends false and the error is FetchError; without one nothing changes |
| MessagesHook.Hook.SendMessage | frontend_app/hooks/useMessages.ts:70-127 | without a thread it throws and changes nothing; a reply with an id swaps it in place; an empty or idless reply is answered by a refetch with no rollback; a failure restores the snapshot and rethrows |
| Attachments.ToKind | frontend_app/store/attachments.ts:17-18 | the kind is image exactly when the type starts with "image/" |
| Attachments.Room | frontend_app/store/attachments.ts:41 | the free room never takes the count past ten, and fills it exactly to ten when the queue is not over the limit |
| Attachments.SmallEnough | frontend_app/store/attachments.ts:45 | exactly the files within 25 MiB are kept, with SmallEnoughConcat fixing their order |
| Attachments.SmallEnoughConcat | frontend_app/store/attachments.ts:45 | the filter distributes over concatenation, so the kept files keep their order and multiplicity |
| Attachments.Picked | frontend_app/store/attachments.ts:43-45 | at most the free room is taken, and a file is kept exactly when it is among the first Room(count) files and within the size limit |
| Attachments.PickedSnoc | frontend_app/store/attachments.ts:43-45 | within the room, one more chosen file is appended to the kept ones exactly when it is within the size limit, so the kept files are in the order chosen |
| Attachments.Entry | frontend_app/store/attachments.ts:48-57 | a new entry is pending with no URL and no error, keeps the file's name and size, defaults an empty type to application/octet-stream, and is an image exactly when the type starts with "image/" |
| Attachments.Entries | frontend_app/store/attachments.ts:48-57 | one entry per picked file, in order, each with its own fresh id and preview URL |
| Attachments.AddFilesBound | frontend_app/store/attachments.ts:36-60 | adding files never takes the queue past ten entries, and adds nothing to a full queue |
| Attachments.OversizedFileUsesSlot | frontend_app/store/attachments.ts:43-45 | with one slot left an oversized first file takes the slot, so a small file after it is not added |
| Attachments.PickedKeepsSmallFiles | frontend_app/store/attachments.ts:43-45 | every file within the room and the size limit is kept |
| Attachments.Without | frontend_app/store/attachments.ts:63 | exactly the entries with another id are kept |
| Attachments.WithoutConcat | frontend_app/store/attachments.ts:63 | removing distributes over concatenation, so the other entries keep their order |
| Attachments.WithoutDistinct | frontend_app/store/attachments.ts:63 | removing keeps the ids distinct |
| Attachments.Apply | frontend_app/store/attachments.ts:73-82 | a status change keeps the entry's id |
| Attachments.UpdateWhere | frontend_app/store/attachments.ts:73-82 | the list keeps its length and exactly the entries with the given id are changed |
| Attachments.MarkOnlyTarget | frontend_app/store/attachments.ts:73-82 | with distinct ids a mark changes exactly the one entry with that id and keeps every id and position |
| Attachments.Queue.constructor | frontend_app/store/attachments.ts:32-33 | the queue starts empty |
| Attachments.Queue.AddFiles | frontend_app/store/attachments.ts:36-60 | the picked files are appended as new entries and the queue stays within ten entries with distinct ids |
| Attachments.Queue.Remove | frontend_app/store/attachments.ts:63 | the queue becomes Without of the old one and stays valid |
| Attachments.Queue.ClearAll | frontend_app/store/attachments.ts:66-70 | the queue becomes empty |
| Attachments.Queue.MarkUploading | frontend_app/store/attachments.ts:73-74 | the entry with the id becomes uploading; nothing else changes |
| Attachments.Queue.MarkDone | frontend_app/store/attachments.ts:77-78 | the entry with the id becomes done with the URL recorded; nothing else changes |
| Attachments.Queue.MarkError | frontend_app/store/attachments.ts:81-82 | the entry with the id becomes failed with the message recorded; nothing else changes |
| Upload.ErrorText | frontend_app/lib/upload.ts:20-31 | the recorded error is never empty: the body of a rejected upload or the thrown message when non-empty, else "Error" |
| Upload.Finished | frontend_app/lib/upload.ts:13-32 | after its turn an entry keeps its id and is done with the URL when stored, otherwise failed with the error text |
| Upload.Successes | frontend_app/lib/upload.ts:27 | the attachments returned are stored uploads of queue entries; none when nothing was stored |
| Upload.SuccessesHas | frontend_app/lib/upload.ts:27 | every stored upload's attachment is returned, whatever the other uploads did |
| Upload.SuccessesSnoc | frontend_app/lib/upload.ts:12-33 | one more entry appends its attachment exactly when its upload was stored, so the results are in queue order |
| Upload.AllStored | frontend_app/lib/upload.ts:12-33 | when every upload succeeds the result has one attachment per entry, in queue order |
| Upload.Progress | frontend_app/lib/upload.ts:12-33 | after i turns the first i entries are finished and the rest untouched |
| Upload.Process | frontend_app/lib/upload.ts:13-32 | one turn changes exactly the entry at its index to its finished state |
| Upload.UploadPendingAttachments | frontend_app/lib/upload.ts:5-36 | the result is exactly the successful uploads in queue order, every entry has had its turn, a failure does not stop the loop, and the queue stays valid |
| ChatPage.History | frontend_app/components/custom_ui/chat-page.tsx:62-67 | the history has at most one turn per id listed in the thread |
| ChatPage.HistoryFollowsList | frontend_app/components/custom_ui/chat-page.tsx:62-67 | in a sound store the history has one turn per listed message, in list order, each with that message's role and content |
| ChatPage.HistoryEndsWithUserMessage | frontend_app/components/custom_ui/chat-page.tsx:58-67 | once the user's message is stored, the history sent ends with it |
| ChatPage.ReplyText | frontend_app/components/custom_ui/chat-page.tsx:75-84 | the assistant's text is the reply when the response carries one, an ellipsis when it does not, and the fixed error text when the request failed |
| ChatPage.Page.constructor | frontend_app/components/custom_ui/chat-page.tsx:20-22 | the page starts with an empty input, not loading |
| ChatPage.Page.HandleSend | frontend_app/components/custom_ui/chat-page.tsx:50-88 | blank input or no thread changes nothing; otherwise the input is cleared, the trimmed user message is stored, the history ending with it is sent, exactly one assistant message with ReplyText is stored, and loading ends false |
| Sse.EscapeChar | backend_app/app/utils/see.py:11 | an escaped character holds no control character, and an ordinary character (including all of non-ASCII) is written as it is |
| Sse.Escape | backend_app/app/utils/see.py:11 | an escaped string body holds no control character |
| Sse.EscapeRoundTrip | backend_app/app/utils/see.py:11 | escaping loses nothing: the JSON reading of the escaped body is the original string |
| Sse.Dumps | backend_app/app/utils/see.py:11 | the JSON text is non-empty and holds no control character, so no line feed or carriage return |
| Sse.FirstBreak | backend_app/app/utils/see.py:15 | the index of the first character at which Python's splitlines breaks, or the length when there is none |
| Sse.SplitLines | backend_app/app/utils/see.py:15 | no piece holds a character at which splitlines breaks |
| Sse.DataLines | backend_app/app/utils/see.py:15-16 | one data line per piece, each the piece after "data: " |
| Sse.FrameOneLine | backend_app/app/utils/see.py:12-17 | a frame with one data line is the optional event line, "data: ", the line and a blank line |
| Sse.SseAsWritten | backend_app/app/utils/see.py:9-17 | as written: a string payload yields nothing (None) and any other payload one frame cut at every splitlines break |
| Sse.Sse | backend_app/app/utils/see.py:9-17 | a string payload yields nothing; any other payload yields the UTF-8 of the optional event line, one data line carrying the whole JSON text, and a blank line |
| Sse.SseRecoversJson | backend_app/app/utils/see.py:9-17 | the JSON text can be read back from the frame: after the event line and "data: " comes exactly the JSON text and then the blank line |
| Sse.AsWrittenAgrees | backend_app/app/utils/see.py:15 | a payload whose JSON text has none of Python's extra line breaks is framed the same as written and corrected |
| Sse.SplitAtLineSeparator | backend_app/app/utils/see.py:15 | splitlines cuts at U+2028 |
| Sse.LineSeparatorSplitsFrame | backend_app/app/utils/see.py:11-17 | as written, a payload whose JSON text holds U+2028 is framed as two data lines cut at that character |
| Sse.LineSeparatorChangesFrame | backend_app/app/utils/see.py:11-17 | as written, such a payload's frame differs from the one-line frame that carries the JSON text unchanged |
| Sse.OneLineFrame | backend_app/app/utils/see.py:12-17 | without an event name the frame is "data: ", the JSON text and a blank line |
| Sse.Get | backend_app/app/utils/see.py:22-24 | a key is absent exactly when no entry carries it |
| Sse.Put | backend_app/app/utils/see.py:24 | the key reads the new value, every other key reads as before, an existing key keeps its place and a new one goes last |
| Sse.PutUnique | backend_app/app/utils/see.py:24 | putting keeps the keys distinct |
| Sse.Update | backend_app/app/utils/see.py:24 | updating keeps the keys distinct and leaves every key the arguments do not name unchanged |
| Sse.UpdateSetsKwargs | backend_app/app/utils/see.py:24 | every keyword argument ends up in the dictionary with its value |
| Sse.DebugPayload | backend_app/app/utils/see.py:21-25 | an object with distinct keys carrying type "debug" and the stage unless a keyword overrides them |
| Sse.DebugFrame | backend_app/app/utils/see.py:21-25 | the debug frame has no event line and its payload carries the stage and every keyword field |
| Sse.WithStatus | backend_app/app/utils/see.py:29-42 | the base fields type "error", where and the message (the detail of an HTTPException, otherwise the exception's text), plus status exactly for an HTTPException, and no trace yet |
| Sse.WithTrace | backend_app/app/utils/see.py:43-44 | trace is set exactly when the switch is on; every other key is unchanged and keys stay distinct |
| Sse.ErrorPayload | backend_app/app/utils/see.py:29-45 | the error payload is an object |
| Sse.ErrorPayloadBase | backend_app/app/utils/see.py:29-45 | the error payload has distinct keys and carries type "error", where the error happened and the message |
| Sse.ErrorPayloadStatus | backend_app/app/utils/see.py:41-42 | the payload carries status exactly for an HTTPException, with its status code |
| Sse.ErrorPayloadTrace | backend_app/app/utils/see.py:43-44 | the payload carries trace exactly when the switch is on |
| ChatRouter.SafeStream | backend_app/app/routers/chat.py:11-17 | never more chunks than items; only None items give nothing, and items that are all present give one chunk each |
| ChatRouter.SafeStreamConcat | backend_app/app/routers/chat.py:11-17 | the stream works item by item, keeping order and inserting nothing: a concatenation of item runs gives the concatenation of their chunks |
| ChatRouter.SafeStreamSingle | backend_app/app/routers/chat.py:13-17 | None gives nothing, a string its UTF-8 encoding, bytes themselves |
| ChatRouter.ItemOf | backend_app/app/routers/chat.py:29 | what the frame function returns is a None item exactly when it returned nothing |
| ChatRouter.RagChatResponse | backend_app/app/routers/chat.py:20-31 | the response is declared an event stream that must not be cached, transformed or buffered, and its body is the generator's output through SafeStream |
| Context.TitleOf | backend_app/app/utils/context.py:12 | the title is a truthy title, else a truthy source, else "" |
| Context.Tag | backend_app/app/utils/context.py:12-19 | the tag starts with "[i] " and the title, ends with the source when there is one, and is exactly "[i] title" without a truthy page or source |
| Context.Entry | backend_app/app/utils/context.py:15-21 | an entry starts with its "[i] " tag and ends with a line feed and the hit's text ("" when missing) |
| Context.Entries | backend_app/app/utils/context.py:10-21 | one entry per hit, numbered consecutively from the start |
| Context.FormatHits | backend_app/app/utils/context.py:8-24 | the text is empty exactly when there are no hits, and a single hit gives its entry numbered 1 |
| Context.FormatHitsSnoc | backend_app/app/utils/context.py:10-24 | one more hit adds one more entry, numbered after the others and separated from them by a blank line |
| Utf8.EncodeChar | backend_app/app/utils/see.py:17 | a character takes one to four bytes, and exactly the ASCII ones take one byte equal to the code point |
| Utf8.Encode | backend_app/app/utils/see.py:17 | the encoding is at least as long as the text and empty exactly when the text is |
| Utf8.DecodeEncode | backend_app/app/utils/see.py:17 | decoding the encoding gives the text back |
| Utf8.EncodeInjective | backend_app/app/utils/see.py:17 | distinct texts have distinct encodings |
| Utf8.EncodeConcat | backend_app/app/utils/see.py:17 | encoding distributes over concatenation |
| RagChat.LastUserAt | backend_app/app/chat_system/RAGchat.py:19-22 | the position of the last user message: none exactly when no message is the user's, otherwise a user message with none after it |
| RagChat.LastUser | backend_app/app/chat_system/RAGchat.py:19-22 | the content of the last user message, none exactly when there is no user message |
| RagChat.Strings | backend_app/app/chat_system/RAGchat.py:140-152 | a JSON array with one string per id |
| RagChat.Payload | backend_app/app/chat_system/RAGchat.py:33-362 | only the closing done call passes a string payload, and only it names an event |
| RagChat.PayloadChunk | backend_app/app/chat_system/RAGchat.py:206 | the calls whose payload a client reads as a token are exactly the chunk calls, and the delta it reads is the streamed one |
| RagChat.Chunks | backend_app/app/chat_system/RAGchat.py:206 | at most one delta per call |
| RagChat.IngestEvent | backend_app/app/chat_system/RAGchat.py:78-84 | one attachment's ingestion is reported as a debug frame exactly when it succeeded and as an error frame exactly when it failed |
| RagChat.TruthyIds | backend_app/app/chat_system/RAGchat.py:135 | only non-empty ids are kept, and none are left exactly when every id is empty |
| RagChat.IngestEvents | backend_app/app/chat_system/RAGchat.py:77-84 | one report per attachment, in order, an error exactly for those whose ingestion failed, and no chunk |
| RagChat.IngestAll | backend_app/app/chat_system/RAGchat.py:76-86 | the loop's reports are exactly IngestEvents: a failure does not stop the next ingestion |
| RagChat.AwaitReady | backend_app/app/chat_system/RAGchat.py:89-118 | the poll succeeds exactly when a document became ready, reports every round it saw, and otherwise ends with an error frame |
| RagChat.ResolveDocIds | backend_app/app/chat_system/RAGchat.py:121-152 | document ids are found exactly when the listing returned some truthy id; they are those ids, reported in a doc_ids frame; otherwise the run ends with an error frame |
| RagChat.Retrieve | backend_app/app/chat_system/RAGchat.py:89-198 | retrieval goes on exactly when the poll, the document ids, the embedding and the search succeed; the context is then the formatted hits and the last frame is llm_begin; otherwise it ends with an error frame |
| RagChat.AwaitDocs | backend_app/app/chat_system/RAGchat.py:89-152 | without attachments nothing is awaited; with them the step succeeds exactly when a document became ready and truthy ids were listed |
| RagChat.EmbedAndSearch | backend_app/app/chat_system/RAGchat.py:155-198 | goes on exactly when the embedding and the search succeed; the context is the formatted hits and the last frame is llm_begin; otherwise an error frame ends it |
| RagChat.Connect | backend_app/app/chat_system/RAGchat.py:37-59 | succeeds exactly when the client is made and the thread is found, and always reports client_init first with whether the client was made; otherwise an error frame ends it |
| RagChat.Prepare | backend_app/app/chat_system/RAGchat.py:37-198 | the steps before the language model reach llm_begin exactly when every one of them succeeds, report client_init first and otherwise end with an error frame; none of them sends a chunk |
| RagChat.DraftSave | backend_app/app/chat_system/RAGchat.py:209-234 | a draft save upserts the text so far under a freshly minted id, which is kept exactly when the upsert succeeded |
| RagChat.MidSave | backend_app/app/chat_system/RAGchat.py:237-255 | an overwrite happens only with a truthy id at a token count that is a multiple of 30, and keeps the id |
| RagChat.RunTokens | backend_app/app/chat_system/RAGchat.py:200-255 | the loop keeps every delta in order and counts them |
| RagChat.RunTokensSnoc | backend_app/app/chat_system/RAGchat.py:200-255 | one more delta adds exactly one more step's frames and writes |
| RagChat.OnToken | backend_app/app/chat_system/RAGchat.py:203-255 | the loop body for one delta computes exactly one step |
| RagChat.StreamTokens | backend_app/app/chat_system/RAGchat.py:200-255 | the token loop computes exactly RunTokens over the model's deltas |
| RagChat.RunTokensChunks | backend_app/app/chat_system/RAGchat.py:200-206 | each delta gives exactly one chunk frame, in order |
| RagChat.FirstSaved | backend_app/app/chat_system/RAGchat.py:209-234 | the first token whose draft upsert succeeded, none exactly when all failed |
| RagChat.RunTokensDraft | backend_app/app/chat_system/RAGchat.py:209-234 | after the loop the draft id is the one minted at the first token whose draft upsert succeeded, or none |
| RagChat.RunTokensWrites | backend_app/app/chat_system/RAGchat.py:209-255 | every write of the loop stores the text streamed so far at a received token; a draft upsert happens only while no earlier one succeeded, an overwrite only under a kept id at a multiple of 30 |
| RagChat.SaveWrites | backend_app/app/chat_system/RAGchat.py:263-358 | nothing is written without a client, at most two writes are made and none with empty content |
| RagChat.SaveWritesCases | backend_app/app/chat_system/RAGchat.py:263-358 | no client writes nothing; no token posts the fallback text; otherwise the stripped text, when not empty, is upserted under a truthy draft id or else posted as a new message |
| RagChat.FinalTextStripped | backend_app/app/chat_system/RAGchat.py:292 | the saved text occurs in the streamed text and neither starts nor ends with white space |
| RagChat.SaveFallback | backend_app/app/chat_system/RAGchat.py:265-287 | without a token the no-token error comes first and the fallback post is reported exactly when it succeeded |
| RagChat.SaveFinal | backend_app/app/chat_system/RAGchat.py:290-358 | the final save is reported; an upsert's success is reported with the draft id and a post's with the new row's id |
| RagChat.Finish | backend_app/app/chat_system/RAGchat.py:263-362 | the finally block writes SaveWrites, reports the missing tokens first and always ends with the end frames |
| RagChat.Assemble | backend_app/app/chat_system/RAGchat.py:33-362 | start, the preparatory calls and the rest: the first calls stay first, the end stays last and the chunks are those of the rest |
| RagChat.Answer | backend_app/app/chat_system/RAGchat.py:199-257 | the loop runs only when preparation succeeded, giving one chunk per delta; a stream failure is reported after them |
| RagChat.Conclude | backend_app/app/chat_system/RAGchat.py:199-362 | the frames end closed, carry exactly the deltas as chunks when preparation succeeded, and the writes are the loop's then the finally block's |
| RagChat.Generate | backend_app/app/chat_system/RAGchat.py:26-362 | the run starts with start and client_init, always ends with the end frames, sends every delta as a chunk exactly when every preparatory step succeeded and none otherwise, and writes the loop's saves then the final save |
| RagChat.RunRagChat | backend_app/app/chat_system/RAGchat.py:18-366 | without a truthy last user message the run aborts with the 400 exception, which, raised inside the already started 200 stream, ends the body before any frame; otherwise the stream carries the generator's output: start first, every delta as a chunk exactly when preparation succeeded, closed by the end frames |
| RagChat.Items | backend_app/app/chat_system/RAGchat.py:33-362 | one generator item per call, the call's payload passed through the corrected frame function (one data line per JSON text) |
| RagChat.ItemsAsWritten | backend_app/app/chat_system/RAGchat.py:33-362 | one generator item per call, the call's payload passed through the frame function as written, cut at every splitlines break |
| RagChat.ItemsAsWrittenAgree | backend_app/app/utils/see.py:15 | when no payload's JSON text holds a Python line break, the items and the body sent as written are exactly those of the corrected framing |
| RagChat.WireConcat | backend_app/app/chat_system/RAGchat.py:365-366 | the response body is built call by call |
| RagChat.EndWire | backend_app/app/chat_system/RAGchat.py:361 | the end call yields its frame |
| RagChat.DoneWire | backend_app/app/chat_system/RAGchat.py:362 | the done call yields nothing |
| RagChat.WireOfClosed | backend_app/app/chat_system/RAGchat.py:360-362 | every run sends the same body with or without its last call, so the last bytes a client receives are the end frame and no done event ever reaches it |
| IngestDocument.GuessMime | backend_app/app/workers/ingest_RAG_document.py:64-69 | a provided type wins, then the guess from the file name, then the generic binary type; never empty |
| IngestDocument.CleanText | backend_app/app/workers/ingest_RAG_document.py:73-83 | same length; every C0 control other than tab, line feed and carriage return becomes a space and every other character stays |
| IngestDocument.CleanTextFixes | backend_app/app/workers/ingest_RAG_document.py:76-83 | a text without such controls is unchanged |
| IngestDocument.CleanTextIdempotent | backend_app/app/workers/ingest_RAG_document.py:76-83 | cleaning twice is cleaning once |
| IngestDocument.StripFrontmatter | backend_app/app/workers/ingest_RAG_document.py:119-120 | a text not opening with three dashes, or without a later three dashes, is unchanged; otherwise everything up to the end of the first later three dashes is removed, leaving a suffix |
| IngestDocument.FrontmatterShortest | backend_app/app/workers/ingest_RAG_document.py:119-120 | the block removed is the shortest one opening and closing with three dashes |
| IngestDocument.DocumentExtractor | backend_app/app/workers/ingest_RAG_document.py:304-326 | PDF is chosen exactly when the type or the name says PDF, and the earlier families take precedence over the later ones |
| IngestDocument.Extract | backend_app/app/workers/ingest_RAG_document.py:107-230 | extraction fails exactly for HTML and PowerPoint; Markdown is decoded and stripped of front matter; plain and CSV text is the decoded text |
| IngestDocument.BlankStripsToEmpty | backend_app/app/workers/ingest_RAG_document.py:251 | a skipped text strips to nothing |
| IngestDocument.TextDocuments | backend_app/app/workers/ingest_RAG_document.py:252-265 | one document per piece the splitter makes of the cleaned text, each piece cleaned again and tagged with the text's page |
| IngestDocument.DocumentsSnoc | backend_app/app/workers/ingest_RAG_document.py:250-265 | each further text adds its documents at the end, nothing when blank |
| IngestDocument.ToDocuments | backend_app/app/workers/ingest_RAG_document.py:238-267 | the loop builds exactly the documents of the non-blank texts, in order |
| IngestDocument.DocumentsTagged | backend_app/app/workers/ingest_RAG_document.py:256-263 | every document carries the attachment's project, id, title and source, and no control character |
| IngestDocument.DocumentsPaged | backend_app/app/workers/ingest_RAG_document.py:262 | every document carries the page of a non-blank text it came from |
| IngestDocument.BlankTextsNoDocuments | backend_app/app/workers/ingest_RAG_document.py:250-252 | all-blank texts give no documents |
| IngestDocument.IngestFromStorage | backend_app/app/workers/ingest_RAG_document.py:273-350 | a failed download raises its error; the extraction fails exactly when the extractor chosen is HTML or PowerPoint, with the extractor's error; otherwise no documents return 0 without calling the store, and documents are handed to the store, whose error is raised, or else the count is their number |
| IngestSync.SplitStoragePath | backend_app/app/workers/ingest_sync.py:34-47 | an empty path is the default bucket and nothing; a path whose first segment is a known bucket is split at its first slash; anything else is an object path in the default bucket |
| IngestSync.SplitStoragePathRejoins | backend_app/app/workers/ingest_sync.py:34-47 | bucket and object path give back the stored path, and the object path is empty only for an empty path or a bare bucket prefix |
| IngestSync.ReprChar | backend_app/app/workers/ingest_sync.py:97 | a character is written as itself exactly when it is neither the quote, nor a backslash, nor an ASCII control character |
| IngestSync.PyRepr | backend_app/app/workers/ingest_sync.py:97 | the text between two equal quotes, double exactly when it holds a single quote and no double quote |
| IngestSync.ReprBodyPlain | backend_app/app/workers/ingest_sync.py:97 | plain characters are written as they are between single quotes |
| IngestSync.PyReprPlain | backend_app/app/workers/ingest_sync.py:97 | a text of plain characters reads as itself in single quotes |
| IngestSync.InvalidPathsQuoted | backend_app/app/workers/ingest_sync.py:95-97 | the two paths without an object path read as '' and 'private/' |
| IngestSync.IsImage | backend_app/app/workers/ingest_sync.py:50-72 | an image exactly when the type starts with image/ or the lower-cased name ends in an image extension |
| IngestSync.QueuedImagesSkipped | backend_app/app/workers/ingest_sync.py:99-101 | whatever the web client queues as an image is skipped by the worker |
| IngestSync.SyncExtractor | backend_app/app/workers/ingest_sync.py:128-153 | PDF is chosen exactly when the type or the name says PDF, in the same precedence as the document worker |
| IngestSync.ExtractorsAgree | backend_app/app/workers/ingest_sync.py:128-153 | for names not ending in .json both workers choose the same extractor |
| IngestSync.JsonEndingExcludes | backend_app/app/workers/ingest_sync.py:135-151 | a .json name ends in none of the other extensions, and is in the text family here only |
| IngestSync.JsonFileReadAsJson | backend_app/app/workers/ingest_sync.py:146-147 | a .json file of a non-text type is read as JSON by this worker |
| IngestSync.JsonFileReadAsPlain | backend_app/app/workers/ingest_RAG_document.py:304-326 | the same file is read as plain text by the document worker |
| IngestSync.PiecesOf | backend_app/app/workers/ingest_sync.py:181 | one piece per string the splitter makes of the text, each with the text's page |
| IngestSync.PiecesSnoc | backend_app/app/workers/ingest_sync.py:178-181 | each further text adds its pieces at the end, nothing when blank |
| IngestSync.NumberedSnoc | backend_app/app/workers/ingest_sync.py:183-200 | appending the next piece with the next index keeps the rows numbered 0, 1, 2 in piece order |
| IngestSync.AppendPieces | backend_app/app/workers/ingest_sync.py:181-200 | the inner loop appends a text's pieces with consecutive chunk indexes |
| IngestSync.BuildChunks | backend_app/app/workers/ingest_sync.py:176-200 | the rows are exactly the pieces of all non-blank texts in order, the k-th with chunk_index k and the document's shared columns |
| IngestSync.BatchAt | backend_app/app/workers/ingest_sync.py:206 | a batch holds at most one hundred rows, and at least one when it starts inside the rows |
| IngestSync.BatchedSnoc | backend_app/app/workers/ingest_sync.py:205-206 | posting the next slice keeps the posted batches the consecutive hundred-row slices |
| IngestSync.FlattenSnoc | backend_app/app/workers/ingest_sync.py:205-215 | posting the next slice extends the inserted prefix of the rows |
| IngestSync.PostedPrefixSnoc | backend_app/app/workers/ingest_sync.py:205-215 | a successful post keeps the posted batches the first slices, their concatenation the inserted prefix |
| IngestSync.InsertBatches | backend_app/app/workers/ingest_sync.py:203-217 | the rows are posted in order in slices of at most one hundred; without a failure all rows are inserted, and a failed post stops the loop with only the earlier slices inserted |
| IngestSync.IngestSyncFromAttachment | backend_app/app/workers/ingest_sync.py:75-217 | a failed or empty attachment lookup is an error, and an empty object path fails with "invalid storage_path: " and the path's repr; an image returns without work exactly when the path is valid; otherwise the run fails exactly when the download, the extraction or the documents insert fails or that insert returns no row; else the rows are the numbered chunks of the extracted text under the new document's id, posted in hundred-row slices, all inserted when every post succeeds, and an insert failure is the first failed post |
| IngestSync.Found | backend_app/app/workers/ingest_sync.py:79-86 | the attachment row exactly when the lookup answered with one |
| Deps.BearerToken | backend_app/app/deps.py:5-18 | a header whose lower-cased form starts with "bearer " gives the stripped text after the scheme; otherwise a non-empty cookie gives its value; a 401 "missing token" exactly when neither does |
| Deps.BearerPrefixSplit | backend_app/app/deps.py:10-11 | splitting such a header at its first space cuts right after the scheme |
| Deps.BearerHeaderRoundTrip | backend_app/app/deps.py:10-11 | a header built from a token gives back that token, whatever the cookie |
| Deps.BlankBearerAccepted | backend_app/app/deps.py:10-11 | a scheme followed only by spaces yields the empty token rather than an error |
| PostgrestCalls.ErrorText | backend_app/app/routers/threads.py:97-98 | the text of an error: the message, or for an HTTP exception a text ending in its detail |
| PostgrestCalls.FirstRow | backend_app/app/routers/threads.py:96 | the first row exactly when the answer is a non-empty list |
| PostgrestCalls.DeleteReply | backend_app/app/routers/threads.py:105-117 | 204 exactly when the delete succeeded or its error mentions an already-gone phrase; otherwise 400 with the error text |
| PostgrestCalls.BenignPhraseAccepted | backend_app/app/routers/threads.py:111-116 | an already-gone phrase in any letter case anywhere in the error text makes the delete succeed |
| ThreadsRouter.ListThreadsQuery | backend_app/app/routers/threads.py:38-42 | the query selects the thread columns of one project, oldest first, with distinct keys |
| ThreadsRouter.ListThreads | backend_app/app/routers/threads.py:43-46 | the rows, or 400 naming the failed call |
| ThreadsRouter.ThreadName | backend_app/app/routers/threads.py:56-58 | never empty: the stripped name, or the default name when that is blank |
| ThreadsRouter.ThreadNameIdempotent | backend_app/app/routers/threads.py:56-58 | a stored name is stripped, and naming a thread by its own name keeps it |
| ThreadsRouter.NewThread | backend_app/app/routers/threads.py:53-63 | the client's id when given, else the fresh id; the project and the thread name |
| ThreadsRouter.CreateThread | backend_app/app/routers/threads.py:65-80 | the first created row; 500 when none comes back; a client HTTP error unchanged; any other error 400 |
| ThreadsRouter.RenameThread | backend_app/app/routers/threads.py:87-98 | the first updated row or nothing; every error, an HTTP error included, 400 |
| ThreadsRouter.DeleteThread | backend_app/app/routers/threads.py:101-117 | 204 exactly when the delete succeeded or the thread was already gone, else 400 |
| ProjectsRouter.ListProjectsQuery | backend_app/app/routers/projects.py:50 | every visible project, newest first, with distinct keys |
| ProjectsRouter.ListProjects | backend_app/app/routers/projects.py:51-54 | the rows, or 400 with the source's detail text |
| ProjectsRouter.CreateProject | backend_app/app/routers/projects.py:76-85 | the created project, or 400 with the error text for every error |
| ProjectsRouter.PatchBody | backend_app/app/routers/projects.py:93 | the body holds exactly the given fields, and is empty exactly when none is given |
| ProjectsRouter.UpdateProject | backend_app/app/routers/projects.py:88-108 | an empty patch is refused with 400; otherwise the first updated row, 404 when none, a client HTTP error unchanged, any other error 400 |
| ProjectsRouter.EmptyPatchMakesNoCall | backend_app/app/routers/projects.py:94-95 | an empty patch's answer does not depend on the database |
| ProjectsRouter.DeleteProject | backend_app/app/routers/projects.py:111-127 | 204 exactly when the delete succeeded or the project was already gone, else 400 |
| AdminRouter.RequireAdmin | backend_app/app/routers/admin.py:75-83 | no error exactly when the caller is an admin or superuser; otherwise 403 "admin only" |
| AdminRouter.TargetIsSuperuser | backend_app/app/routers/admin.py:252-262 | the target counts as a superuser exactly when the lookup succeeded and its first row's role is superuser |
| AdminRouter.SuperuserGrantRefused | backend_app/app/routers/admin.py:234-246 | a caller known not to be a superuser, and a caller whose status is unknown, are refused with their own 403 details |
| AdminRouter.ChangeUserRole | backend_app/app/routers/admin.py:216-282 | 403 for non-admins, 400 for a role outside the valid four, 403 for a superuser grant by a caller not known to be one, 409 for demoting the last superuser; it succeeds exactly when all guards pass and the write succeeds, with the role written |
| AdminRouter.DeleteFailureDetail | backend_app/app/routers/admin.py:331-336 | never empty: the msg field, else the body text, else "delete failed" |
| AdminRouter.DeleteUser | backend_app/app/routers/admin.py:289-345 | 403 for non-admins, 409 for the last superuser; done exactly when the guards pass and the auth service answers 200, 204 or 404 |
| AdminRouter.CreateFailureDetail | backend_app/app/routers/admin.py:131-145 | never empty: msg, else error_description, else error of a JSON body, or the raw text, else a fixed detail |
| AdminRouter.CreateUserAsWritten | backend_app/app/routers/admin.py:102-171 | 403 for non-admins; the auth service's failure and a missing id are errors; otherwise the requested role is written for the new id unchecked |
| AdminRouter.AdminCreatesSuperuser | backend_app/app/routers/admin.py:163-171 | as written, an admin who may not grant superuser by a role change creates a superuser, and an invalid role is written |
| AdminRouter.CreateUser | backend_app/app/routers/admin.py:102-282 | with the role rules of the role change applied first: a created user gets only a valid role, and superuser only from a superuser |
| AdminRouter.LookupRows | backend_app/app/routers/admin.py:256-262 | the lookup gives at most one row, and one exactly when the user has a role |
| AdminRouter.RoleChangeKeepsASuperuser | backend_app/app/routers/admin.py:248-270 | with an accurate count and lookup, a role change that goes through leaves at least one superuser |
| AdminRouter.DeleteKeepsASuperuser | backend_app/app/routers/admin.py:301-318 | with an accurate count and lookup, a deletion that goes through leaves at least one superuser |
| AdminRouter.DeleteIsIdempotent | backend_app/app/routers/admin.py:330-345 | deleting an already deleted user counts as done |
| AuthRouter.EnsureSameSite | backend_app/app/routers/auth.py:30-36 | accepted exactly when the lower-cased setting is lax, strict or none, and none only with secure cookies; the accepted value is the lower-cased one |
| AuthRouter.EnsureSameSiteIdempotent | backend_app/app/routers/auth.py:30-36 | an accepted setting is accepted again unchanged |
| AuthRouter.LoadCookieConfig | backend_app/app/routers/auth.py:15-62 | secure exactly when the setting is "true" in any case; SameSite one of the three and none only when secure; a domain exactly when a non-empty one is set |
| AuthRouter.DefaultCookieConfig | backend_app/app/routers/auth.py:15-62 | with nothing set, cookies are not secure, SameSite is lax and no domain is given |
| AuthRouter.RStrip | backend_app/app/routers/auth.py:12 | the longest prefix not ending in the character, the rest being that character only |
| AuthRouter.RemoveUnsafeAppend | backend_app/app/routers/auth.py:45 | removing tabs and line breaks works piece by piece |
| AuthRouter.SupabaseUrl | backend_app/app/routers/auth.py:41-50 | accepted exactly when the value without trailing slashes is non-empty and its scheme is http or https; the result has no trailing slash |
| AuthRouter.TrailingSlashIgnored | backend_app/app/routers/auth.py:12 | a trailing slash never changes the answer |
| AuthRouter.HttpUrlAccepted | backend_app/app/routers/auth.py:41-50 | an http or https URL not ending in a slash is accepted unchanged |
| AuthRouter.HttpScheme | backend_app/app/routers/auth.py:45 | the parsed scheme of such a URL is its own scheme |
| AuthRouter.Response.constructor | backend_app/app/routers/auth.py:156 | a response starts without cookies |
| AuthRouter.Response.SetCookie | backend_app/app/routers/auth.py:172-178 | setting a cookie appends it and changes nothing else |
| AuthRouter.GrantFailureDetail | backend_app/app/routers/auth.py:100-112 | never empty: the error description, else the error, else the body text, else a fixed detail |
| AuthRouter.Login | backend_app/app/routers/auth.py:156-178 | a refused grant is 401 with its detail and an unreachable service 500; missing tokens give 502; cookies are set exactly when both tokens came back: the access cookie for expires_in seconds (3600 by default) and the refresh cookie for fourteen days, and an error sets none |
| AuthRouter.Me | backend_app/app/routers/auth.py:193-259 | no access cookie is 401; a found user is returned; an expired token with a refresh cookie is refreshed, both cookies reset (the old refresh token kept when none comes back) and the user looked up again; a failed refresh is 401; a network error 503 and any other failure 500; cookies change only on a successful refresh |
| FilesRouter.DictGet | backend_app/app/routers/files.py:58-64 | nothing exactly when no pair has the key, otherwise a value paired with it |
| FilesRouter.DictGetLastWins | backend_app/app/routers/files.py:58-60 | a later pair overrides an earlier one with the same key and leaves other keys alone |
| FilesRouter.DictGetDistinct | backend_app/app/routers/files.py:91-102 | with distinct keys every pair is found under its own key |
| FilesRouter.DictGetPresent | backend_app/app/routers/files.py:96-102 | adding an entry only when it has a value changes the lookup of that key only |
| FilesRouter.CookiePiece | backend_app/app/routers/files.py:59 | name, "=" and value rebuild the stripped piece, and the name holds no "=" |
| FilesRouter.CookiePairsOf | backend_app/app/routers/files.py:58-60 | at most one pair per piece, no name holding "=" |
| FilesRouter.CookiePairsOne | backend_app/app/routers/files.py:59 | a piece with "=" gives exactly its own pair |
| FilesRouter.GetAccessToken | backend_app/app/routers/files.py:38-71 | the token is never empty; an accepted bearer header wins; otherwise the sb-access-token cookie, then the access_token cookie; 401 "missing bearer token" exactly when neither the header nor either cookie gives a token |
| FilesRouter.BearerHeaderAccepted | backend_app/app/routers/files.py:49-52 | a header "Bearer" plus a non-blank token is accepted and gives the token |
| FilesRouter.HeaderRoundTrip | backend_app/app/routers/files.py:49-52 | a well-formed bearer header gives back its token whatever the cookies say |
| FilesRouter.SessionCookiePiece | backend_app/app/routers/files.py:59 | a session cookie piece splits into the cookie name and its value |
| FilesRouter.SingleCookiePairs | backend_app/app/routers/files.py:58-60 | a header without ";" is one pair |
| FilesRouter.SessionCookieWins | backend_app/app/routers/files.py:64-66 | without an accepted header, a non-empty session cookie is the token |
| FilesRouter.SessionCookieRoundTrip | backend_app/app/routers/files.py:55-66 | a cookie header holding only the session cookie gives back its value |
| FilesRouter.BlankBearerRefused | backend_app/app/routers/files.py:51 | "Bearer" followed by spaces is refused here although the token dependency accepts it as the empty token |
| FilesRouter.DropNone | backend_app/app/routers/files.py:102 | never longer than the entries |
| FilesRouter.DropNoneAppend | backend_app/app/routers/files.py:102 | dropping missing values works piece by piece |
| FilesRouter.DropNoneSingle | backend_app/app/routers/files.py:102 | one entry survives exactly when it has a value |
| FilesRouter.ListFilesParams | backend_app/app/routers/files.py:91-102 | the order and the column list, then the mime filter when the prefix is non-empty and the project and thread filters when given |
| FilesRouter.ListFilesKeys | backend_app/app/routers/files.py:91-102 | the query starts with the order and the columns, holds only the five known keys and none twice |
| FilesRouter.ListFilesFilters | backend_app/app/routers/files.py:91-102 | looked up by key, the mime filter is there exactly when the prefix is non-empty and each eq filter exactly when its id is given |
| FilesRouter.ListFiles | backend_app/app/routers/files.py:104-105 | an empty answer lists nothing, otherwise the rows |
| Middleware.NonEmptyMapped | frontend_app/middleware.ts:9-11 | never longer than the parts, and no kept name is empty |
| Middleware.NonEmptyMappedHas | frontend_app/middleware.ts:9-11 | a name is kept exactly when it is the non-empty trimmed image of some part |
| Middleware.CookieNames | frontend_app/middleware.ts:7-11 | every name is non-empty, free of commas and already trimmed |
| Middleware.EmptyEnvNamesNothing | frontend_app/middleware.ts:7-8 | a variable set to the empty text names no cookie at all, since the default applies only when it is unset |
| Middleware.TwoNames | frontend_app/middleware.ts:7-11 | two comma-separated clean names are read back as they are |
| Middleware.DefaultCookieNamesParsed | frontend_app/middleware.ts:7-8 | without the variable the gate looks for sb-access-token and access_token |
| Middleware.Gate | frontend_app/middleware.ts:27-60 | the request goes through exactly when its path is public or some named cookie has a non-empty value; otherwise it is sent to the login page with a next query made only of unreserved characters and escapes |
| Middleware.RedirectCarriesTarget | frontend_app/middleware.ts:50-55 | decoding next gives back exactly the path and query that were asked for |
| Middleware.LoginPageOpen | frontend_app/middleware.ts:27-28 | the login page is public, so a redirect never loops |
| BackendClient.DefinedPairs | frontend_app/lib/backend.ts:14-15 | at most one pair per entry |
| BackendClient.DefinedPairsHas | frontend_app/lib/backend.ts:14-15 | a pair is set exactly when some entry with that name holds a value other than null or undefined with that text |
| BackendClient.ToURL | frontend_app/lib/backend.ts:8-19 | the path is kept and the query is the path's own query with every defined entry set in entry order; without a query nothing is added |
| BackendClient.ToURLGet | frontend_app/lib/backend.ts:13-17 | a name reads as the text of its last defined entry, or as the path's own query when it has none |
| BackendClient.Handle | frontend_app/lib/backend.ts:24-39 | it throws exactly when the response failed, with the body text, or "HTTP " and the status when the body is empty; an empty ok body is undefined; the body is parsed exactly when the content type mentions JSON, and is returned as text otherwise |
| BackendClient.EmptyFailureNamesStatus | frontend_app/lib/backend.ts:30 | an empty failed body is reported by its status, so two statuses never share a message |
| Uri.HexDigit | frontend_app/middleware.ts:53 | a hex digit is an unreserved character |
| Uri.HexRoundTrip | frontend_app/middleware.ts:53 | reading a hex digit gives back its value |
| Uri.Escape | frontend_app/middleware.ts:53 | three characters per byte, each a "%" or unreserved |
| Uri.EncodeChar | frontend_app/middleware.ts:53 | only "%" and unreserved characters |
| Uri.EncodeURIComponent | frontend_app/middleware.ts:53 | only "%" and unreserved characters remain, and the text never gets shorter |
| Uri.EscapeDecodes | frontend_app/middleware.ts:53 | escaped bytes read back as those bytes |
| Uri.EncodeCharDecodes | frontend_app/middleware.ts:53 | one encoded character reads back as its UTF-8 bytes |
| Uri.EncodedBytes | frontend_app/middleware.ts:53 | the escapes stand for exactly the UTF-8 encoding of the text |
| Uri.DecodeEncode | frontend_app/middleware.ts:53 | decoding undoes encoding |
| SearchParams.Get | frontend_app/app/api/file/route.ts:22 | a value found belongs to a pair with that name |
| SearchParams.Delete | frontend_app/app/api/file/route.ts:25 | never adds a pair |
| SearchParams.DeleteKeeps | frontend_app/app/api/file/route.ts:25 | the pairs kept are exactly those of other names |
| SearchParams.GetDelete | frontend_app/app/api/file/route.ts:25 | after a delete the name reads as missing and every other name as before |
| SearchParams.Set | frontend_app/app/api/file/route.ts:27 | an absent name is appended; the pairs of other names stay as they were |
| SearchParams.DeleteTwice | frontend_app/app/api/file/route.ts:25 | deleting twice is deleting once |
| SearchParams.SetGet | frontend_app/app/api/file/route.ts:27 | after a set the name reads as the new value and every other name as before |
| SearchParams.Count | frontend_app/app/api/file/route.ts:22 | no pair of a name exactly when it reads as missing |
| SearchParams.CountDelete | frontend_app/app/api/file/route.ts:25 | no pair of the name survives a delete |
| SearchParams.SetCount | frontend_app/app/api/file/route.ts:27 | after a set exactly one pair carries the name |
| SearchParams.SetIdempotent | frontend_app/app/api/file/route.ts:27 | setting the same value twice changes nothing more |
| SearchParams.LastValue | frontend_app/app/api/file/route.ts:27 | nothing exactly when no entry has the name, otherwise the value of an entry with it |
| SearchParams.SetAllGet | frontend_app/app/api/file/route.ts:27 | after setting every entry a name reads as its last entry, or as before when it has none |
| SearchParams.LastValueDelete | frontend_app/app/api/file/route.ts:24-25 | deleting one name leaves the last value of every other name as it was |
| FileRoute.ForwardHeaders | frontend_app/app/api/file/route.ts:5-12 | a header is forwarded exactly when it is whitelisted and the request carries it with a non-empty value, and with that value |
| FileRoute.DropTrailingSlash | frontend_app/app/api/file/route.ts:15 | at most one trailing slash is removed |
| FileRoute.UpstreamBase | frontend_app/app/api/file/route.ts:14-18 | missing exactly when nothing usable is set; otherwise a non-empty base followed by /api/v1 |
| FileRoute.TrailingSlashIgnored | frontend_app/app/api/file/route.ts:15 | a set variable reads the same with one trailing slash |
| FileRoute.SlashOnlyExternal | frontend_app/app/api/file/route.ts:15-16 | an external address of only "/" wins over the internal one and leaves the base missing |
| FileRoute.DropLeadingSlash | frontend_app/app/api/file/route.ts:26 | at most one leading slash is removed |
| FileRoute.UpstreamUrl | frontend_app/app/api/file/route.ts:20-29 | fails exactly when the path is missing or empty or the base is missing; otherwise the address is the base, a slash and the path |
| FileRoute.BuildUpstreamUrl | frontend_app/app/api/file/route.ts:20-29 | the built address is exactly UpstreamUrl |
| FileRoute.SetEach | frontend_app/app/api/file/route.ts:27 | setting each pair on a fresh address gives SetAll |
| FileRoute.ForwardedQuery | frontend_app/app/api/file/route.ts:24-27 | every incoming name except path reaches the backend once, with its last value |
| FileRoute.BadRequest | frontend_app/app/api/file/route.ts:35 | status 400 with a non-empty body |
| FileRoute.GetReply | frontend_app/app/api/file/route.ts:32-50 | 400 when the address cannot be built, 502 when the fetch throws, 500 for a status the Response constructor refuses, else the upstream status and body with its content type or JSON |
| FileRoute.WriteReply | frontend_app/app/api/file/route.ts:69-99 | the same error cases; a null body status (204, 205, 304) or an out-of-range one makes the handler fail with 500, since the body is always a string; otherwise an answer keeps its status, its content type only when non-empty, and a failed answer never has an empty body |
| FileRoute.DeletedFileFails | frontend_app/app/api/file/route.ts:96-98 | as written, an upstream 204 with no content, the backend's answer to a deleted file, reaches the browser as 500 |
| FileRoute.RelayReply | frontend_app/app/api/file/route.ts:89-98 | corrected: a null body status is relayed with its status and no body; every other answer as WriteReply |
| FileRoute.RelayKeepsStatus | frontend_app/app/api/file/route.ts:89-98 | corrected: an answered request fails with 500 exactly for a status outside 200..599, and an upstream 204 is relayed as 204 |
| FileRoute.Proxy | frontend_app/app/api/file/route.ts:32-99 | nothing is sent exactly when the address cannot be built; the request carries the verb, the built address and the whitelisted headers, and a body exactly for POST, PATCH and PUT, relayed as it is; the reply is GetReply or WriteReply |
| StableSort.WithKey | frontend_app/app/agent/admin/page.tsx:314-332 | never longer than the sequence |
| StableSort.Insert | frontend_app/app/agent/admin/page.tsx:316-330 | the element is added and nothing else changes as a multiset |
| StableSort.SortBy | frontend_app/app/agent/admin/page.tsx:314-332 | the sorted copy holds the same elements |
| StableSort.InsertSorted | frontend_app/app/agent/admin/page.tsx:316-330 | inserting into an ascending sequence keeps it ascending |
| StableSort.SortBySorted | frontend_app/app/agent/admin/page.tsx:314-332 | the sorted copy is in ascending key order |
| StableSort.InsertWithKey | frontend_app/app/agent/admin/page.tsx:316-330 | an insertion places the element after the elements of its own key |
| StableSort.SortByStable | frontend_app/app/agent/admin/page.tsx:314-332 | elements with the same key keep their relative order |
| AdminPage.LastLoginAgo | frontend_app/app/agent/admin/page.tsx:98-116 | never exactly without a date; just now exactly for a future time; otherwise the whole number of seconds, minutes, hours or days passed, each unit used only below the next, and the month beyond thirty days |
| AdminPage.AgoMonotone | frontend_app/app/agent/admin/page.tsx:103-115 | an older login never reads as more recent than a newer one |
| AdminPage.FormatLastLogin | frontend_app/app/agent/admin/page.tsx:98-116 | "-" without a date, "たった今" for a future time, the count of LastLoginAgo's bucket followed by 秒前, 分前, 時間前 or 日前, and the formatted month from thirty days on |
| AdminPage.RoleRank | frontend_app/app/agent/admin/page.tsx:150-155 | between -1 and 3; 3 exactly for superuser; -1 exactly for a role outside the four; a missing role ranks as user |
| AdminPage.ProjectsOfUser | frontend_app/app/agent/admin/page.tsx:237-242 | nothing without a selected user; otherwise only listed projects that have no owner or belong to that user, with ProjectsOfUserConcat fixing their order |
| AdminPage.ProjectsOfUserConcat | frontend_app/app/agent/admin/page.tsx:237-242 | the filter distributes over concatenation, so the shown projects keep the loaded order and the first shown one is the first ownerless or owned project |
| AdminPage.ProjectsOfUserComplete | frontend_app/app/agent/admin/page.tsx:239-241 | every ownerless or owned project is shown |
| AdminPage.NextSelection | frontend_app/app/agent/admin/page.tsx:244-253 | none when nothing is shown; the previous one whenever it is still shown; otherwise the first shown project |
| AdminPage.NextSelectionIdempotent | frontend_app/app/agent/admin/page.tsx:244-253 | re-running the selection rule changes nothing |
| AdminPage.Page.constructor | frontend_app/app/agent/admin/page.tsx:124-145 | an empty table sorted by name ascending, nothing selected and an empty form with role user |
| AdminPage.Page.ToggleSort | frontend_app/app/agent/admin/page.tsx:298-305 | the same column flips the direction, another one becomes the column in ascending order, and nothing else changes |
| AdminPage.Page.OnSelectedUser | frontend_app/app/agent/admin/page.tsx:228-235 | without a user the projects and the project selection are cleared; with one the projects are reloaded, kept on a failed load |
| AdminPage.Page.SyncSelectedProject | frontend_app/app/agent/admin/page.tsx:244-253 | with a user selected the project selection follows NextSelection, so it is empty exactly when nothing is shown and otherwise names a shown project; nothing else changes |
| AdminPage.Page.HandleCreateUser | frontend_app/app/agent/admin/page.tsx:178-191 | nothing is sent without an email or a role; otherwise the form's values are sent and the form is reset only when the creation succeeds |
| AdminPage.SortedUsersOrdered | frontend_app/app/agent/admin/page.tsx:314-332 | the sorted table holds the same users, ordered by the column's key under the direction, users with equal keys in table order |
| AdminPage.RoleDescending | frontend_app/app/agent/admin/page.tsx:325-329 | sorted by role descending, ranks never rise down the table |
| FilesPage.DropLeadingSlashes | frontend_app/app/agent/files/page.tsx:39 | every leading slash and nothing else is removed |
| FilesPage.SentPairs | frontend_app/app/agent/files/page.tsx:40-44 | at most one pair per parameter |
| FilesPage.ApiQuery | frontend_app/app/agent/files/page.tsx:38-44 | the query is path first, then every defined non-empty parameter set in order |
| FilesPage.SentPairsNames | frontend_app/app/agent/files/page.tsx:40-44 | a name no parameter carries is never sent |
| FilesPage.ApiQueryReads | frontend_app/app/agent/files/page.tsx:38-45 | the proxy reads the slash-free path unless a parameter is named path, and every other name as its last sendable value |
| FilesPage.ApiResponse | frontend_app/app/agent/files/page.tsx:49-54 | it throws exactly when the response failed, with the message "API <status>: " followed by the body, or by the status text when the body is empty; otherwise the body is parsed exactly when the content type mentions JSON |
| FilesPage.Coalesce | frontend_app/app/agent/files/page.tsx:74-81 | the first present value |
| FilesPage.ToImage | frontend_app/app/agent/files/page.tsx:72-82 | the id, type and title are kept; the storage path is storage_path, else path, else key, and the signed address signedUrl, else signed_url, else url; size 0 and the current time stand in for missing values |
| FilesPage.ListImages | frontend_app/app/agent/files/page.tsx:70-82 | only rows whose type is a string starting with image/ are listed, with ListImagesConcat fixing their order |
| FilesPage.ListImagesHas | frontend_app/app/agent/files/page.tsx:70-82 | every image row is listed, normalised |
| FilesPage.ListImagesFrom | frontend_app/app/agent/files/page.tsx:70-82 | every listed image comes from an image row |
| FilesPage.ListImagesConcat | frontend_app/app/agent/files/page.tsx:70-82 | listing distributes over concatenation, so images keep the order of their rows, one per image row |
| FilesPage.FilterImages | frontend_app/app/agent/files/page.tsx:155-163 | an image is shown exactly when it passes the project, thread and keyword tests, and only listed images are shown, with FilterImagesConcat fixing their order |
| FilesPage.FilterImagesConcat | frontend_app/app/agent/files/page.tsx:155-163 | filtering distributes over concatenation, so the shown images keep their order and multiplicity |
| FilesPage.NoFilterShowsAll | frontend_app/app/agent/files/page.tsx:153-164 | with both filters on all and a blank keyword every image is shown in order |
| FilesPage.BlankKeyword | frontend_app/app/agent/files/page.tsx:154 | a keyword of spaces only applies no test |
| FilesPage.Relinked | frontend_app/app/agent/files/page.tsx:196 | the relinked image takes the new project and thread and every other image is as it was |
| FilesPage.RemoveById | frontend_app/app/agent/files/page.tsx:214 | exactly the images with another id remain, with RemoveByIdConcat fixing their order |
| FilesPage.RemoveByIdConcat | frontend_app/app/agent/files/page.tsx:214 | removal distributes over concatenation, so the remaining images keep their order and multiplicity |
| FilesPage.LinkValue | frontend_app/app/agent/files/page.tsx:193-194 | "none" and "" mean no link, any other choice links to itself |
| FilesPage.Short | frontend_app/app/agent/files/page.tsx:422 | the first six characters, or the whole id when shorter |
| FilesPage.Page.constructor | frontend_app/app/agent/files/page.tsx:102 | the page starts without images |
| FilesPage.Page.ApplyRelink | frontend_app/app/agent/files/page.tsx:189-203 | nothing is sent without a target; otherwise the relink is sent and only its success relinks the image locally |
| FilesPage.Page.DoDelete | frontend_app/app/agent/files/page.tsx:209-220 | nothing is sent without a target; otherwise the delete is sent and only its success removes the image locally |

## Left out

- Network, database, storage, auth-service, embedding, vector-search and language-model calls are not executed by the model. Each one is an input holding its answer or how it failed.
- `crud.py`, the repository modules, the other Next.js proxies and `routers/attachments.py` are not part of this model. They only carry those calls.
- Clocks, `new Date()`, `nowJSTformat`, `crypto.randomUUID` and `uuid4` are parameters. Temporary ids are assumed to be fresh, which is what the random ids make true in practice.
- `formatMonthJP` and the `Intl.Collator` of the admin page are parameters. The collator is taken to order text by a rank.
- The extraction libraries, `mimetypes`, `chardet`, `_decode_bytes` and the text splitter are function parameters. So are the PDF, Word and JSON extractors. `_extract_html` and `_extract_pptx` are modelled only as raising, which they do on every input.
- `IngestSync.PyRepr`: only the ASCII escapes of Python's `repr` are modelled. Characters outside ASCII that Python does not count as printable, such as U+0085 or U+2028, are written as themselves instead of as `\x`, `\u` or `\U` escapes.
- `AdminRouter.CreateUserAsWritten`: a failure of the `profiles` or `user_roles` upsert (admin.py:156-169) is not modelled. It raises after the auth account already exists, so the request fails while the account stays.
- `FileRoute.GetReply`, `FileRoute.WriteReply`: the body of the runtime's 500 answer to a handler that throws is not modelled; it is taken to be empty.
- `IngestSync.IngestSyncFromAttachment`: the embedding vectors of the chunk rows and a failure of `emb.embed_query` are not modelled, nor the `raw["data"]` fallback for a download that is not bytes or a lookup row missing a column.
- The readiness poll's eight-second sleeps are not modelled. The poll is the sequence of document counts its rounds saw.
- Cancellation (`asyncio.CancelledError`, a client that disconnects) is not modelled: every run of the generator reaches its `finally` block.
- React rendering, effect scheduling and the interleaving of concurrent awaits are not modelled. Each handler runs as one sequence: snapshot, optimistic step, remote outcome, result.
- The selectThread effect of the chat page (`chat-page.tsx:40-42`) and the admin page's `refreshUsers` are not modelled. The admin page's thread tab is not modelled either.
- The file page's `refresh` and `openRelink` are not modelled, nor is its loading of projects and threads. They only set state from a fetch.
- `new URL` resolution against the base, URL validity errors and the percent-encoding of a serialised query are left out. A query is its list of name/value pairs.
- `JSON.parse` and `res.json()` failures are left out: a parsed body is the raw text it came from.
- `Text.Lower`: folds only the ASCII letters. Python's `str.lower` and JavaScript's `toLowerCase` fold all of Unicode, so the benign-delete phrases, the bearer scheme and file extensions match only ASCII case variants in the model.
- JavaScript records are modelled as maps, without `Object.prototype` keys such as `__proto__`, and without any entry order other than insertion order.
- Header names are taken as already lower-cased. Duplicate cookie names are not modelled.
- JavaScript numbers and Python ints are unbounded integers. Non-integer `expires_in` values, which make `int()` raise, are not modelled.
- Framework behaviour outside the handlers is not modelled: pydantic's 422 answers, transport errors that become 500, logging, `print` and `console.error`.
- Logout is outside the core. The create, update and delete handlers of `files.py` are also outside it, since they pass their arguments to database procedures.

## Findings

| source | as written | input that shows it | evidently intended | confidence | as-written member | corrected member |
|---|---|---|---|---|---|---|
| backend_app/app/utils/see.py:15 | the JSON text is cut into `data:` lines by `str.splitlines()`, which also breaks at U+0085, U+2028 and U+2029; `json.dumps(..., ensure_ascii=False)` leaves these characters unescaped | a chunk payload whose delta is "a", U+2028, "b": it is framed as two `data:` lines, and a reader joins them with a line feed, so the rejoined text holds a raw line feed inside a JSON string, which a JSON parser rejects | one `data:` line per JSON text, cut only at line feeds, so the reader recovers the JSON text exactly | high (not executed) | Sse.LineSeparatorChangesFrame | Sse.SseRecoversJson |
| backend_app/app/routers/admin.py:163-171 | `create_user` writes the requested role without the checks of `change_user_role`: any string is accepted, and superuser is accepted from an admin who is not a superuser | an admin whose `is_superuser` answer is false creates a user with role "superuser", or with "root" | the same rules as a role change: only the four valid roles, and superuser only from a superuser | medium (not executed) | AdminRouter.AdminCreatesSuperuser | AdminRouter.CreateUser |
| frontend_app/app/api/file/route.ts:96-98 | `writeThrough` always passes the upstream text, a string, as the body of `new Response`; under the Fetch standard a non-null body with a null body status (204, 205, 304) makes the constructor throw a TypeError, and nothing catches it | deleting a file: the backend answers 204 with no content (files.py:146), so the proxy answers 500 and the files page reports the delete as failed and keeps the image | relay a null body status with no body | medium (not executed) | FileRoute.DeletedFileFails | FileRoute.RelayKeepsStatus |
| frontend_app/store/state.ts:165-167 | `createUser` takes the number of users plus one as the new id and sets it with a spread, so an id already taken is overwritten | users "1" and "2", then "1" is deleted: the next user is given id "2" and replaces the existing user "2" | a fresh id, so every existing user stays and exactly one user is added | medium (not executed) | EntityStore.SecondUserOverwritten | EntityStore.CreateUserFresh |

`ChatStore.Store.CreateUser` and `FileRoute.Proxy` model the program as written. The corrected `EntityStore.CreateUserFresh` and `FileRoute.RelayReply` stand beside them.
