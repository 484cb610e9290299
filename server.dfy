/**
 * The route handlers of the chat backend, run against an in-memory store that
 * holds the two collections. The completion provider is a parameter: a function
 * from the context it is sent to what the call produced.
 */
module Server {
  import opened Wrappers
  import opened Documents
  import opened Context
  import opened Reply
  import opened Requests

  /** The two messages one accepted send appends: the user's turn, then the assistant's. */
  function Exchange(cid: string, content: string, reply: string): (r: seq<Message>) {
    [Message(cid, UserRole, content), Message(cid, AssistantRole, reply)]
  }

  /**
   * A send changes only its own conversation's transcript, which grows by the
   * user's message and then the reply; every other conversation reads the same.
   */
  lemma SendTouchesOneConversation(ms: seq<Message>, cid: string, content: string, reply: string, other: string)
    ensures MessagesOf(ms + Exchange(cid, content, reply), cid) == MessagesOf(ms, cid) + Exchange(cid, content, reply)
    ensures other != cid ==> MessagesOf(ms + Exchange(cid, content, reply), other) == MessagesOf(ms, other)
  {
    var ex := Exchange(cid, content, reply);
    MessagesOfConcat(ms, ex, cid);
    MessagesOfConcat(ms, ex, other);
    assert ex[1..][1..] == [];
  }

  /**
   * Two sends in a row to one conversation: the second context holds the first
   * send's user message and reply, in that order, just before the new utterance.
   */
  lemma SecondSendSeesFirst(ms: seq<Message>, cid: string, first: string, reply: string, second: string)
    ensures
      var h := MessagesOf(ms, cid);
      var ctx := BuildContext(MessagesOf(ms + Exchange(cid, first, reply), cid), second);
      && |ctx| == |h| + 4
      && ctx[|h| + 1] == Turn(UserRole, first)
      && ctx[|h| + 2] == Turn(AssistantRole, reply)
      && ctx[|h| + 3] == Turn(UserRole, second)
  {
    SendTouchesOneConversation(ms, cid, first, reply, cid);
    var h := MessagesOf(ms, cid);
    var h' := h + Exchange(cid, first, reply);
    assert h'[|h|] == Exchange(cid, first, reply)[0];
    assert h'[|h| + 1] == Exchange(cid, first, reply)[1];
  }

  /** The store: conversations and messages, each in creation order. */
  class ChatStore {
    var conversations: seq<Conversation>
    var messages: seq<Message>

    /** Conversation identifiers are unique and every stored title is non-empty. */
    ghost predicate Valid()
      reads this
    {
      && UniqueIds(conversations)
      && forall i :: 0 <= i < |conversations| ==> conversations[i].title != ""
    }

    constructor ()
      ensures Valid() && conversations == [] && messages == []
    {
      conversations := [];
      messages := [];
    }

    /** `GET /api/conversations`: every conversation, newest first. */
    method ListConversations() returns (r: seq<Conversation>)
      ensures |r| == |conversations|
      ensures forall i :: 0 <= i < |r| ==> r[i] == conversations[|conversations| - 1 - i]
    {
      r := NewestFirst(conversations);
    }

    /**
     * `POST /api/conversations`: appends a conversation titled by `DefaultTitle`.
     * The store supplies an identifier not yet in use.
     */
    method CreateConversation(title: Option<string>, freshId: string) returns (c: Conversation)
      requires Valid() && Absent(conversations, freshId)
      modifies this
      ensures Valid()
      ensures c == Conversation(freshId, DefaultTitle(title))
      ensures conversations == old(conversations) + [c] && messages == old(messages)
    {
      c := Conversation(freshId, DefaultTitle(title));
      conversations := conversations + [c];
    }

    /** `GET /api/messages`: the conversation's messages, oldest first, once the id is checked. */
    method ListMessages(conversationId: Option<string>) returns (r: Result<seq<Message>, Error>)
      ensures !Present(conversationId) ==> r == Err(ConversationIdRequired)
      ensures Present(conversationId) ==> r == Ok(MessagesOf(messages, conversationId.value))
    {
      var v := ValidateListing(conversationId);
      if v.Err? {
        return Err(v.error);
      }
      r := Ok(MessagesOf(messages, v.value));
    }

    /** `Message.create`: appends one message after every stored one. */
    method AppendMessage(cid: string, role: string, content: string) returns (m: Message)
      modifies this
      ensures m == Message(cid, role, content)
      ensures messages == old(messages) + [m] && conversations == old(conversations)
    {
      m := Message(cid, role, content);
      messages := messages + [m];
    }

    /**
     * `POST /api/messages`. A rejected request stores nothing. An accepted one reads
     * the history, builds the context from it, appends the user's message, calls
     * the provider with that context, appends the reply (or the fallback), and
     * returns the re-read transcript: the old history plus the two new messages.
     * The conversation need not exist.
     */
    method Send(content: Option<string>, conversationId: Option<string>, complete: seq<Turn> -> Completion)
      returns (r: Result<seq<Message>, Error>)
      requires Valid()
      modifies this
      ensures Valid() && conversations == old(conversations)
      ensures ValidateSend(content, conversationId).Err? ==>
        r == Err(ValidateSend(content, conversationId).error) && messages == old(messages)
      ensures ValidateSend(content, conversationId).Ok? ==>
        var (c, cid) := ValidateSend(content, conversationId).value;
        var history := MessagesOf(old(messages), cid);
        var reply := ReplyText(complete(BuildContext(history, c)), c);
        && messages == old(messages) + Exchange(cid, c, reply)
        && r == Ok(MessagesOf(messages, cid))
        && r == Ok(history + Exchange(cid, c, reply))
    {
      var v := ValidateSend(content, conversationId);
      if v.Err? {
        return Err(v.error);
      }
      var (c, cid) := v.value;
      ghost var before := messages;
      var history := MessagesOf(messages, cid);
      var context := BuildContext(history, c);
      var userMessage := AppendMessage(cid, UserRole, c);
      var reply := ReplyText(complete(context), c);
      var assistantMessage := AppendMessage(cid, AssistantRole, reply);
      assert messages == before + Exchange(cid, c, reply);
      SendTouchesOneConversation(before, cid, c, reply, cid);
      var updated := MessagesOf(messages, cid);
      r := Ok(updated);
    }

    /**
     * `PATCH /api/conversations/:id`. A missing or blank title is rejected and
     * nothing changes; otherwise the conversation with that id, if any, gets the
     * trimmed title and is returned, and no other conversation changes.
     */
    method RenameConversation(id: string, title: Option<string>) returns (r: Result<Option<Conversation>, Error>)
      requires Valid()
      modifies this
      ensures Valid() && messages == old(messages)
      ensures RenameTitle(title).Err? ==> r == Err(TitleRequired) && conversations == old(conversations)
      ensures RenameTitle(title).Ok? && Absent(old(conversations), id) ==>
        r == Ok(None) && conversations == old(conversations)
      ensures RenameTitle(title).Ok? && !Absent(old(conversations), id) ==>
        r == Ok(Some(Conversation(id, RenameTitle(title).value)))
      ensures RenameTitle(title).Ok? ==>
        && |conversations| == |old(conversations)|
        && forall k :: 0 <= k < |conversations| ==>
             conversations[k] == if old(conversations)[k].id == id
                                 then Conversation(id, RenameTitle(title).value)
                                 else old(conversations)[k]
    {
      var t := RenameTitle(title);
      if t.Err? {
        return Err(t.error);
      }
      var found := Find(conversations, id);
      if found.None? {
        return Ok(None);
      }
      var i := found.value;
      var renamed := Conversation(id, t.value);
      conversations := conversations[i := renamed];
      r := Ok(Some(renamed));
    }

    /**
     * `DELETE /api/conversations/:id`: removes the conversation's messages, then the
     * conversation. Every other message and conversation stays, in order; an
     * unknown id changes nothing but is not an error.
     */
    method DeleteConversation(id: string)
      requires Valid()
      modifies this
      ensures Valid()
      ensures messages == WithoutConversation(old(messages), id)
      ensures conversations == ConversationsExcept(old(conversations), id)
    {
      messages := WithoutConversation(messages, id);
      ExceptKeepsUnique(conversations, id);
      conversations := ConversationsExcept(conversations, id);
    }
  }

  /** An empty store accepts a send to a conversation that was never created. */
  method OrphanSendScenario() {
    var store := new ChatStore();
    var r := store.Send(Some("hi"), Some("X"), _ => Failed);
    assert ValidateSend(Some("hi"), Some("X")) == Ok(("hi", "X"));
    assert store.messages == Exchange("X", "hi", FallbackReply("hi"));
    assert r == Ok(store.messages);
  }
}
