/** The messages the chat nodes and clients exchange, one constructor per type
    tag of server/protocol.py, and the outbox that stands for every `send`.
    A datagram is decoded once into a `Message`, so a handler always sees the
    fields its type carries. */
module Protocol {
  import opened Wrappers
  import opened Dicts

  type ServerId = int
  type ClientId = string
  type RoomName = string
  type MsgId = string

  /** A UDP address, `(host, port)`. */
  datatype Addr = Addr(host: string, port: int)

  datatype Message =
    | ClientJoin(clientId: ClientId, joinRoom: Option<RoomName>)   // "room" may be absent
    | ListChatrooms
    | ChatroomsList(rooms: seq<RoomName>)
    | CreateChatroom(room: RoomName)
    | JoinChatroom(room: RoomName)
    | RoomAssignment(room: RoomName, serverAddr: Addr)
    | JoinAck(leader: bool)
    | ChatMsg(msgId: MsgId, from: ClientId, room: RoomName, body: string)
    | Ack(msgId: MsgId, from: ClientId)
    | Delivered(msgId: MsgId)
    | ResendRequest(msgId: MsgId)
    | ServerUp(serverId: ServerId)
    | StateSync(chatrooms: Dict<RoomName, ServerId>, serverLoad: Dict<ServerId, int>)
    | ServerSync
    | Heartbeat(origin: ServerId)                                  // the wire field "from"
    | Election
    | LeaderAnnounce(leaderId: ServerId)
    | RoomAssignmentUpdate(room: RoomName, serverId: ServerId)
    | Unrecognised(tag: string)

  /** One call `send(dest, msg)`. */
  datatype Send = Send(dest: Addr, msg: Message)

  /** The sends of `for addr in addrs: send(addr, m)`. */
  function Broadcast(addrs: seq<Addr>, m: Message): (out: seq<Send>)
    ensures |out| == |addrs|
    ensures forall i :: 0 <= i < |addrs| ==> out[i] == Send(addrs[i], m)
  {
    if addrs == [] then [] else [Send(addrs[0], m)] + Broadcast(addrs[1..], m)
  }

  /** The send loop over a list of addresses: one copy of `m` to each, in order. */
  method SendToAll(addrs: seq<Addr>, m: Message) returns (sent: seq<Send>)
    ensures sent == Broadcast(addrs, m)
  {
    sent := [];
    var i := 0;
    while i < |addrs|
      invariant i <= |addrs| && |sent| == i
      invariant forall k :: 0 <= k < i ==> sent[k] == Send(addrs[k], m)
    {
      sent := sent + [Send(addrs[i], m)];
      i := i + 1;
    }
  }

  /** The message-type constant names the programs refer to. */
  datatype Name =
    | CLIENT_JOIN | LIST_CHATROOMS | CHATROOMS_LIST | CREATE_CHATROOM | JOIN_CHATROOM
    | ROOM_ASSIGNMENT | JOIN_ACK | CHAT_MSG | ACK | DELIVERED | RESEND_REQUEST
    | SERVER_UP | SERVER_SYNC | STATE_SYNC | HEARTBEAT | ELECTION | LEADER_ANNOUNCE
    | ROOM_ASSIGNMENT_UPDATE

  /** The names server/protocol.py binds.  JOIN_ACK is commented out there and
      STATE_SYNC is never defined. */
  const DEFINED_NAMES: set<Name> := {
    CLIENT_JOIN, LIST_CHATROOMS, CHATROOMS_LIST, CREATE_CHATROOM, JOIN_CHATROOM,
    ROOM_ASSIGNMENT, CHAT_MSG, ACK, DELIVERED, RESEND_REQUEST,
    SERVER_UP, SERVER_SYNC, HEARTBEAT, ELECTION, LEADER_ANNOUNCE,
    ROOM_ASSIGNMENT_UPDATE }
}
