/** The test client of client/mock_client.py: it joins a room, sends chat
    messages, ACKs the messages it receives and keeps every message it sent
    until the server confirms delivery, replaying it on request. */
module MockClient {
  import opened Wrappers
  import opened Dicts
  import opened Protocol

  /** The one server every datagram of the client goes to. */
  const SERVER_ADDR := Addr("127.0.0.1", 5001)

  /** The room `join` uses when none is given. */
  const DEFAULT_ROOM: RoomName := "default"

  /** A message the client itself sent, cached under its own id. */
  predicate OwnMessage(clientId: ClientId, msgId: MsgId, m: Message)
  {
    m.ChatMsg? && m.msgId == msgId && m.from == clientId
  }

  /** The datagrams `handle` sends for one incoming message. */
  function Replies(clientId: ClientId, cache: Dict<MsgId, Message>, msg: Message): (sent: seq<Send>)
    ensures forall s :: s in sent ==> s.dest == SERVER_ADDR
    ensures msg.ChatMsg? ==> sent == [Send(SERVER_ADDR, Ack(msg.msgId, clientId))]
    ensures msg.ResendRequest? && msg.msgId in cache.entries ==> sent == [Send(SERVER_ADDR, cache.entries[msg.msgId])]
    ensures !(msg.ChatMsg? || (msg.ResendRequest? && msg.msgId in cache.entries)) ==> sent == []
  {
    match msg
    case ChatMsg(msgId, _, _, _) => [Send(SERVER_ADDR, Ack(msgId, clientId))]
    case ResendRequest(msgId) =>
      if msgId in cache.entries then [Send(SERVER_ADDR, cache.entries[msgId])] else []
    case _ => []
  }

  /** The cache after `handle`: DELIVERED forgets the message, nothing else
      touches the cache. */
  function CacheAfter(cache: Dict<MsgId, Message>, msg: Message): (r: Dict<MsgId, Message>)
    ensures msg.Delivered? ==> r.entries == cache.entries - {msg.msgId}
    ensures !msg.Delivered? ==> r == cache
    ensures r.entries.Keys <= cache.entries.Keys
    ensures forall id :: id in r.entries ==> r.entries[id] == cache.entries[id]
  {
    if msg.Delivered? then Remove(cache, msg.msgId) else cache
  }

  /** A message replayed on request is the very message first sent, so the
      server sees the same id, sender, room and body again. */
  lemma ResendIsIdentical(clientId: ClientId, cache: Dict<MsgId, Message>, msgId: MsgId)
    requires msgId in cache.entries && OwnMessage(clientId, msgId, cache.entries[msgId])
    ensures var sent := Replies(clientId, cache, ResendRequest(msgId));
            |sent| == 1 && sent[0].msg == cache.entries[msgId]
            && sent[0].msg.ChatMsg? && sent[0].msg.msgId == msgId && sent[0].msg.from == clientId
  {
  }

  /** After DELIVERED, a resend request for the same id gets no reply. */
  lemma NoResendAfterDelivered(clientId: ClientId, cache: Dict<MsgId, Message>, msgId: MsgId)
    ensures Replies(clientId, CacheAfter(cache, Delivered(msgId)), ResendRequest(msgId)) == []
  {
  }

  class Client {
    const clientId: ClientId
    /** `pending_messages`: sent messages awaiting DELIVERED, by id. */
    var pendingMessages: Dict<MsgId, Message>
    /** Every datagram this client has sent, oldest first. */
    var outbox: seq<Send>

    /** Every cached message is one this client sent, under its own id. */
    ghost predicate Valid()
      reads this
    {
      forall id :: id in pendingMessages.entries ==> OwnMessage(clientId, id, pendingMessages.entries[id])
    }

    constructor (clientId: ClientId)
      ensures Valid()
      ensures this.clientId == clientId && pendingMessages == Empty() && outbox == []
    {
      this.clientId := clientId;
      pendingMessages := Empty();
      outbox := [];
    }

    /** `join(room="default")`: ask the server to add this client to `room`,
        or to the default room when the argument is omitted (`None`).  The
        datagram always names a room. */
    method Join(room: Option<RoomName>)
      modifies this`outbox
      ensures room.Some? ==> outbox == old(outbox) + [Send(SERVER_ADDR, ClientJoin(clientId, Some(room.value)))]
      ensures room.None? ==> outbox == old(outbox) + [Send(SERVER_ADDR, ClientJoin(clientId, Some(DEFAULT_ROOM)))]
    {
      outbox := outbox + [Send(SERVER_ADDR, ClientJoin(clientId, Some(room.GetOr(DEFAULT_ROOM))))];
    }

    /** `send_message`: `msgId` stands for the fresh uuid.  The message is
        cached under its id and sent once. */
    method SendMessage(room: RoomName, text: string, msgId: MsgId)
      requires Valid()
      modifies this`pendingMessages, this`outbox
      ensures Valid()
      ensures pendingMessages == Put(old(pendingMessages), msgId, ChatMsg(msgId, clientId, room, text))
      ensures outbox == old(outbox) + [Send(SERVER_ADDR, ChatMsg(msgId, clientId, room, text))]
    {
      var msg := ChatMsg(msgId, clientId, room, text);
      pendingMessages := Put(pendingMessages, msgId, msg);
      outbox := outbox + [Send(SERVER_ADDR, msg)];
    }

    /** `handle`: ACK a chat message, forget a delivered one, replay a
        cached one on request; anything else is ignored. */
    method Handle(msg: Message)
      requires Valid()
      modifies this`pendingMessages, this`outbox
      ensures Valid()
      ensures pendingMessages == CacheAfter(old(pendingMessages), msg)
      ensures outbox == old(outbox) + Replies(clientId, old(pendingMessages), msg)
    {
      match msg
      case ChatMsg(msgId, _, _, _) =>
        outbox := outbox + [Send(SERVER_ADDR, Ack(msgId, clientId))];
      case Delivered(msgId) =>
        pendingMessages := Remove(pendingMessages, msgId);
      case ResendRequest(msgId) =>
        if msgId in pendingMessages.entries {
          outbox := outbox + [Send(SERVER_ADDR, pendingMessages.entries[msgId])];
        }
      case _ =>
    }
  }
}
