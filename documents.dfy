/**
 * The two collections the routes work on, and the store queries they issue.
 * Creation order is sequence order: `createdAt` ascending is index ascending.
 */
module Documents {
  import opened Wrappers

  /** A stored chat turn. `role` is free text in the store; the routes write "user" and "assistant". */
  datatype Message = Message(conversationId: string, role: string, content: string)

  /** A chat thread: its store-assigned identifier and its (required, non-empty) title. */
  datatype Conversation = Conversation(id: string, title: string)

  const UserRole: string := "user"
  const AssistantRole: string := "assistant"

  /** No two conversations share an identifier, as the store guarantees for `_id`. */
  predicate UniqueIds(cs: seq<Conversation>) {
    forall i, j :: 0 <= i < j < |cs| ==> cs[i].id != cs[j].id
  }

  /** No conversation in `cs` has identifier `id`. */
  predicate Absent(cs: seq<Conversation>, id: string) {
    forall i :: 0 <= i < |cs| ==> cs[i].id != id
  }

  /**
   * `Message.find({ conversationId }).sort({ createdAt: 1 })`: the messages of one
   * conversation, oldest first. Exactly the messages of that conversation appear.
   */
  function MessagesOf(ms: seq<Message>, cid: string): (r: seq<Message>)
    ensures |r| <= |ms|
    ensures forall m :: m in r ==> m in ms && m.conversationId == cid
    ensures forall m :: m in ms && m.conversationId == cid ==> m in r
  {
    if ms == [] then []
    else (if ms[0].conversationId == cid then [ms[0]] else []) + MessagesOf(ms[1..], cid)
  }

  /** Filtering keeps store order: the query over a concatenation is the concatenation of the queries. */
  lemma {:induction false} MessagesOfConcat(a: seq<Message>, b: seq<Message>, cid: string)
    ensures MessagesOf(a + b, cid) == MessagesOf(a, cid) + MessagesOf(b, cid)
  {
    if a == [] {
      assert a + b == b;
    } else {
      assert (a + b)[0] == a[0];
      assert (a + b)[1..] == a[1..] + b;
      MessagesOfConcat(a[1..], b, cid);
    }
  }

  /** `Message.deleteMany({ conversationId: id })`: every other message, in store order. */
  function WithoutConversation(ms: seq<Message>, id: string): (r: seq<Message>)
    ensures |r| <= |ms|
    ensures forall m :: m in r <==> m in ms && m.conversationId != id
  {
    if ms == [] then []
    else (if ms[0].conversationId != id then [ms[0]] else []) + WithoutConversation(ms[1..], id)
  }

  /**
   * After the cascade, the deleted conversation has no messages, and every other
   * conversation's messages are exactly what they were, in the same order.
   */
  lemma {:induction false} DeleteIsolation(ms: seq<Message>, id: string, other: string)
    ensures MessagesOf(WithoutConversation(ms, id), id) == []
    ensures other != id ==> MessagesOf(WithoutConversation(ms, id), other) == MessagesOf(ms, other)
  {
    if ms != [] {
      var head := if ms[0].conversationId != id then [ms[0]] else [];
      DeleteIsolation(ms[1..], id, other);
      MessagesOfConcat(head, WithoutConversation(ms[1..], id), id);
      MessagesOfConcat(head, WithoutConversation(ms[1..], id), other);
      if head != [] {
        assert head[1..] == [];
      }
    }
  }

  /**
   * The lookup by identifier inside `Conversation.findByIdAndUpdate(id, …)` and
   * `Conversation.findByIdAndDelete(id)`: the position of the first conversation
   * with that identifier, or None when there is none.
   */
  function Find(cs: seq<Conversation>, id: string): (r: Option<nat>)
    ensures r.Some? ==> r.value < |cs| && cs[r.value].id == id && Absent(cs[..r.value], id)
    ensures r.None? ==> Absent(cs, id)
  {
    if cs == [] then None
    else if cs[0].id == id then Some(0)
    else
      match Find(cs[1..], id)
      case None => None
      case Some(k) =>
        assert cs[..k + 1] == [cs[0]] + cs[1..][..k];
        Some(k + 1)
  }

  /** `Conversation.findByIdAndDelete(id)`: every conversation whose identifier differs, in order. */
  function ConversationsExcept(cs: seq<Conversation>, id: string): (r: seq<Conversation>)
    ensures |r| <= |cs|
    ensures forall k :: 0 <= k < |r| ==> r[k].id != id && r[k] in cs
    ensures forall c :: c in r <==> c in cs && c.id != id
  {
    if cs == [] then []
    else (if cs[0].id != id then [cs[0]] else []) + ConversationsExcept(cs[1..], id)
  }

  /** Deleting an identifier no conversation has keeps every conversation. */
  lemma {:induction false} ExceptAbsent(cs: seq<Conversation>, id: string)
    requires Absent(cs, id)
    ensures ConversationsExcept(cs, id) == cs
  {
    if cs != [] {
      ExceptAbsent(cs[1..], id);
      assert [cs[0]] + cs[1..] == cs;
    }
  }

  /** Deleting works element by element: it distributes over concatenation. */
  lemma {:induction false} ExceptConcat(a: seq<Conversation>, b: seq<Conversation>, id: string)
    ensures ConversationsExcept(a + b, id) == ConversationsExcept(a, id) + ConversationsExcept(b, id)
  {
    if a == [] {
      assert a + b == b;
    } else {
      assert (a + b)[0] == a[0];
      assert (a + b)[1..] == a[1..] + b;
      ExceptConcat(a[1..], b, id);
    }
  }

  /** Deleting the only conversation with an identifier cuts exactly that position out. */
  lemma ExceptSplit(cs: seq<Conversation>, i: nat, id: string)
    requires i < |cs| && cs[i].id == id
    requires Absent(cs[..i], id) && Absent(cs[i + 1..], id)
    ensures ConversationsExcept(cs, id) == cs[..i] + cs[i + 1..]
  {
    var before, after := cs[..i], cs[i + 1..];
    var mid := [cs[i]] + after;
    assert cs == before + mid;
    ExceptConcat(before, mid, id);
    ExceptAbsent(before, id);
    assert ConversationsExcept(cs, id) == before + ConversationsExcept(mid, id);
    assert mid[0] == cs[i] && mid[1..] == after;
    assert ConversationsExcept(mid, id) == ConversationsExcept(after, id);
    ExceptAbsent(after, id);
  }

  /**
   * With unique identifiers, deleting a conversation removes exactly the one
   * conversation that has the identifier, if any, and keeps the order of the rest.
   */
  lemma {:induction false} DeleteRemovesOne(cs: seq<Conversation>, id: string)
    requires UniqueIds(cs)
    ensures Find(cs, id).None? ==> ConversationsExcept(cs, id) == cs
    ensures Find(cs, id).Some? ==>
      ConversationsExcept(cs, id) == cs[..Find(cs, id).value] + cs[Find(cs, id).value + 1..]
  {
    var found := Find(cs, id);
    if found.None? {
      ExceptAbsent(cs, id);
    } else {
      var i := found.value;
      var after := cs[i + 1..];
      forall k | 0 <= k < |after| ensures after[k].id != id {
        assert after[k] == cs[i + 1 + k];
      }
      ExceptSplit(cs, i, id);
    }
  }

  /** Filtering conversations keeps their identifiers unique. */
  lemma {:induction false} ExceptKeepsUnique(cs: seq<Conversation>, id: string)
    requires UniqueIds(cs)
    ensures UniqueIds(ConversationsExcept(cs, id))
  {
    if cs != [] {
      var rest := ConversationsExcept(cs[1..], id);
      ExceptKeepsUnique(cs[1..], id);
      if cs[0].id != id {
        forall k | 0 <= k < |rest| ensures rest[k].id != cs[0].id {
          assert rest[k] in cs[1..];
        }
      }
    }
  }

  /** `Conversation.find().sort({ createdAt: -1 })`: all conversations, newest first. */
  function NewestFirst(cs: seq<Conversation>): (r: seq<Conversation>)
    ensures |r| == |cs|
    ensures forall i :: 0 <= i < |cs| ==> r[i] == cs[|cs| - 1 - i]
  {
    if cs == [] then [] else NewestFirst(cs[1..]) + [cs[0]]
  }
}
