/** The per-node record that every handler reads and updates in place
    (state.py).  Both server programs share it; they disagree only on what a
    `chatrooms` entry holds, so the record is generic in that value type. */
module State {
  import opened Wrappers
  import opened Dicts
  import opened Protocol

  /** One entry of `pending_acks`: a chat message still waiting for ACKs. */
  datatype PendingAck = PendingAck(
    sender: ClientId,
    room: RoomName,
    waitingFor: set<ClientId>,
    timestamp: int,
    message: Message)

  class ServerState<R> {
    const serverId: ServerId
    var isLeader: bool
    var leaderAddr: Option<Addr>
    var servers: Dict<ServerId, Addr>
    var clients: Dict<ClientId, Addr>
    var chatrooms: Dict<RoomName, R>
    var serverLoad: Dict<ServerId, int>
    var localRooms: Dict<RoomName, set<ClientId>>
    var pendingAcks: Dict<MsgId, PendingAck>
    var lastHeartbeat: int

    /** A fresh node: a follower with no leader, every table empty, and the
        heartbeat clock started at construction time `now`. */
    constructor (serverId: ServerId, now: int)
      ensures this.serverId == serverId
      ensures !isLeader && leaderAddr == None
      ensures servers == Empty() && clients == Empty() && chatrooms == Empty()
      ensures serverLoad == Empty() && localRooms == Empty() && pendingAcks == Empty()
      ensures lastHeartbeat == now
    {
      this.serverId := serverId;
      isLeader := false;
      leaderAddr := None;
      servers := Empty();
      clients := Empty();
      chatrooms := Empty();
      serverLoad := Empty();
      localRooms := Empty();
      pendingAcks := Empty();
      lastHeartbeat := now;
    }
  }
}
