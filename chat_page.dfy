/** `handleSend` of the chat page: the user's message is stored first, the
  * thread's history (which now ends with it) is sent, and exactly one
  * assistant message records the answer or the failure. The chat request
  * is an input (its outcome). */
module ChatPage {
  import opened Wrappers
  import opened Text
  import opened EntityStore
  import ChatStore

  /** One entry of the history sent with the request. */
  datatype Turn = Turn(role: Role, content: string)

  /** The chat request's outcome: an ok response whose JSON may carry
    * `reply`, or a failure (a non-ok status, a network error or a body
    * that is not JSON). */
  datatype ChatResponse = Answer(reply: Option<string>) | RequestFailed

  const Ellipsis: string := "…"
  const ErrorReply: string := "エラーが発生しました。もう一度お試しください。"

  function TurnOf(m: Message): Turn
  {
    Turn(m.role, m.content)
  }

  /** The history: the thread's messages in list order, ids without a
    * record skipped, each reduced to role and content. */
  function History(s: Tables, threadId: Id): (h: seq<Turn>)
    ensures |h| <= |Lookup(s.messageIdsByThreadId, threadId)|
  {
    var ms := GetMessagesByThreadId(s, threadId);
    seq(|ms|, i requires 0 <= i < |ms| => TurnOf(ms[i]))
  }

  /** In a sound store every listed id has a record, so the history has one
    * turn per listed message, in list order. */
  lemma HistoryFollowsList(s: Tables, threadId: Id)
    requires Valid(s)
    ensures var ids := Lookup(s.messageIdsByThreadId, threadId);
      && |History(s, threadId)| == |ids|
      && forall i :: 0 <= i < |ids| ==> History(s, threadId)[i] == TurnOf(s.messagesById[ids[i]])
  {
    var ids := Lookup(s.messageIdsByThreadId, threadId);
    assert forall i :: 0 <= i < |ids| ==> ids[i] in s.messagesById;
  }

  /** Once the user's message is stored, the history sent ends with it. */
  lemma HistoryEndsWithUserMessage(s: Tables, threadId: Id, content: string, now: string)
    ensures var h := History(CreateMessage(s, content, threadId, UserRole, now), threadId);
      |h| >= 1 && h[|h| - 1] == Turn(UserRole, content)
  {
    var r := CreateMessage(s, content, threadId, UserRole, now);
    var id := IdOf(s.messageCounter);
    var l := Lookup(s.messageIdsByThreadId, threadId);
    ResolveConcat(r.messagesById, l, [id]);
    assert Lookup(r.messageIdsByThreadId, threadId) == l + [id];
    assert Resolve(r.messagesById, [id]) == [r.messagesById[id]];
  }

  /** The text of the assistant message a response leads to. */
  function ReplyText(res: ChatResponse): (t: string)
    ensures res.Answer? && res.reply.Some? ==> t == res.reply.value
    ensures res.Answer? && res.reply.None? ==> t == Ellipsis
    ensures res.RequestFailed? ==> t == ErrorReply
  {
    match res
    case Answer(reply) => reply.GetOr(Ellipsis)
    case RequestFailed => ErrorReply
  }

  class Page {
    const store: ChatStore.Store
    const threadId: Id
    var input: string
    var loading: bool

    constructor (store: ChatStore.Store, threadId: Id)
      ensures this.store == store && this.threadId == threadId
      ensures input == "" && !loading
    {
      this.store := store;
      this.threadId := threadId;
      input := "";
      loading := false;
    }

    /** `handleSend()`: does nothing for blank input or without a thread;
      * otherwise clears the input, stores the user's message, sends the
      * history (returned here) and stores one assistant message. */
    method HandleSend(response: ChatResponse, sentAt: string, answeredAt: string)
      returns (sent: Option<seq<Turn>>)
      modifies this, store
      ensures JsTrim(old(input)) == "" || threadId == "" ==>
        && sent.None? && store.Snapshot() == old(store.Snapshot())
        && input == old(input) && loading == old(loading)
      ensures JsTrim(old(input)) != "" && threadId != "" ==>
        var content := JsTrim(old(input));
        var withUser := CreateMessage(old(store.Snapshot()), content, threadId, UserRole, sentAt);
        && sent == Some(History(withUser, threadId))
        && store.Snapshot() == CreateMessage(withUser, ReplyText(response), threadId, AssistantRole, answeredAt)
        && input == "" && !loading
    {
      var content := JsTrim(input);
      if content == "" || threadId == "" {
        return None;
      }
      ghost var before := store.Snapshot();
      input := "";
      loading := true;
      assert store.Snapshot() == before;
      store.CreateMessage(content, threadId, UserRole, sentAt);
      ghost var withUser := store.Snapshot();
      assert withUser == CreateMessage(before, content, threadId, UserRole, sentAt);
      var history := History(store.Snapshot(), threadId);
      store.CreateMessage(ReplyText(response), threadId, AssistantRole, answeredAt);
      assert store.Snapshot() == CreateMessage(withUser, ReplyText(response), threadId, AssistantRole, answeredAt);
      loading := false;
      sent := Some(history);
    }
  }
}
