/**
 * The chat log of each resume: a map from resume id to the messages sent so
 * far, which only ever grows at the end until it is cleared.  Message ids and
 * timestamps are inputs (the store draws them from a random source and the clock).
 */
module ChatStore {

  datatype Role = User | Assistant

  datatype ChatMessage = ChatMessage(id: string, role: Role, content: string, timestamp: int)

  type Chats = map<string, seq<ChatMessage>>

  /** `chats[resumeId] || []` */
  function MessagesOf(chats: Chats, resumeId: string): seq<ChatMessage>
  {
    if resumeId in chats then chats[resumeId] else []
  }

  /** The log of `resumeId` with `m` at the end; every other log is kept. */
  function WithMessage(chats: Chats, resumeId: string, m: ChatMessage): (r: Chats)
    ensures resumeId in r && MessagesOf(r, resumeId) == MessagesOf(chats, resumeId) + [m]
    ensures r.Keys == chats.Keys + {resumeId}
    ensures forall k :: k != resumeId ==> MessagesOf(r, k) == MessagesOf(chats, k)
  {
    chats[resumeId := MessagesOf(chats, resumeId) + [m]]
  }

  /** The map without the key `resumeId` (a copy with that key deleted). */
  function WithoutChat(chats: Chats, resumeId: string): (r: Chats)
    ensures resumeId !in r && MessagesOf(r, resumeId) == []
    ensures r.Keys == chats.Keys - {resumeId}
    ensures forall k :: k != resumeId ==> MessagesOf(r, k) == MessagesOf(chats, k)
  {
    chats - {resumeId}
  }

  /** Clearing a key that is not there changes nothing. */
  lemma ClearAbsentIsNoOp(chats: Chats, resumeId: string)
    requires resumeId !in chats
    ensures WithoutChat(chats, resumeId) == chats
  {
  }

  /** The result of sending `ms` to `resumeId` one after another. */
  function WithMessages(chats: Chats, resumeId: string, ms: seq<ChatMessage>): Chats
    decreases |ms|
  {
    if ms == [] then chats
    else WithMessages(WithMessage(chats, resumeId, ms[0]), resumeId, ms[1..])
  }

  /** A run of sends appends exactly those messages, in order, and touches no other log. */
  lemma {:induction false} WithMessagesAppends(chats: Chats, resumeId: string, ms: seq<ChatMessage>)
    ensures MessagesOf(WithMessages(chats, resumeId, ms), resumeId) == MessagesOf(chats, resumeId) + ms
    ensures forall k :: k != resumeId ==> MessagesOf(WithMessages(chats, resumeId, ms), k) == MessagesOf(chats, k)
    decreases |ms|
  {
    if ms != [] {
      var next := WithMessage(chats, resumeId, ms[0]);
      WithMessagesAppends(next, resumeId, ms[1..]);
      assert MessagesOf(chats, resumeId) + [ms[0]] + ms[1..] == MessagesOf(chats, resumeId) + ms;
    }
  }

  /** After n sends to a fresh or cleared log, it holds those n messages in sending order. */
  lemma FreshLogHoldsSends(chats: Chats, resumeId: string, ms: seq<ChatMessage>)
    ensures MessagesOf(WithMessages(WithoutChat(chats, resumeId), resumeId, ms), resumeId) == ms
  {
    WithMessagesAppends(WithoutChat(chats, resumeId), resumeId, ms);
  }

  class Store {
    var chats: Chats

    constructor ()
      ensures chats == map[]
    {
      chats := map[];
    }

    function GetMessages(resumeId: string): (r: seq<ChatMessage>)
      reads this
      ensures resumeId !in chats ==> r == []
      ensures resumeId in chats ==> r == chats[resumeId]
    {
      MessagesOf(chats, resumeId)
    }

    /** Appends a message with the given role and content to the log of `resumeId`. */
    method AddMessage(resumeId: string, role: Role, content: string, id: string, timestamp: int)
      modifies this
      ensures chats == WithMessage(old(chats), resumeId, ChatMessage(id, role, content, timestamp))
      ensures GetMessages(resumeId) == old(GetMessages(resumeId)) + [ChatMessage(id, role, content, timestamp)]
      ensures forall k :: k != resumeId ==> GetMessages(k) == old(GetMessages(k))
    {
      var message := ChatMessage(id, role, content, timestamp);
      chats := chats[resumeId := MessagesOf(chats, resumeId) + [message]];
    }

    /** Forgets the log of `resumeId`; every other log is kept. */
    method ClearChat(resumeId: string)
      modifies this
      ensures chats == WithoutChat(old(chats), resumeId)
      ensures GetMessages(resumeId) == []
      ensures forall k :: k != resumeId ==> GetMessages(k) == old(GetMessages(k))
    {
      chats := chats - {resumeId};
    }
  }
}
