/** The room-directory node of server.py: it registers servers, assigns each
    new room to the least-loaded server, tells every server who owns a room,
    hosts the rooms assigned to itself and relays chat for them. */
module DirectoryServer {
  import opened Wrappers
  import opened Dicts
  import opened Protocol
  import opened State
  import Election
  import Heartbeat

  type Loads = Dict<ServerId, int>

  // ---------------------------------------------------------------- least loaded

  /** The position `min` settles on when it scans `keys` by load: a later key
      replaces the current candidate only when its load is strictly smaller. */
  function FirstMinIndex(keys: seq<ServerId>, load: map<ServerId, int>): (k: nat)
    requires |keys| > 0 && forall i :: 0 <= i < |keys| ==> keys[i] in load
    ensures k < |keys|
    ensures forall j :: 0 <= j < |keys| ==> load[keys[k]] <= load[keys[j]]
    ensures forall j :: 0 <= j < k ==> load[keys[k]] < load[keys[j]]
    decreases |keys|
  {
    if |keys| == 1 then 0
    else
      var front := keys[..|keys| - 1];
      assert forall j :: 0 <= j < |front| ==> front[j] == keys[j];
      var k := FirstMinIndex(front, load);
      if load[keys[|keys| - 1]] < load[keys[k]] then |keys| - 1 else k
  }

  /** `min(server_load, key=server_load.get)`: a server whose load is no
      larger than any other's, the first such in insertion order; `None` when
      there is no server, where `min` raises ValueError. */
  function LeastLoaded(load: Loads): (target: Option<ServerId>)
    ensures target == None <==> load.entries == map[]
    ensures target.Some? ==>
              && target.value in load.entries
              && (forall s :: s in load.entries ==> load.entries[target.value] <= load.entries[s])
    ensures target.Some? ==>
              forall j :: 0 <= j < |load.order| && load.order[j] == target.value ==>
                forall i :: 0 <= i < j ==> load.entries[load.order[i]] > load.entries[target.value]
  {
    if load.order == [] then None
    else
      var k := FirstMinIndex(load.order, load.entries);
      assert forall s :: s in load.entries ==> exists j :: 0 <= j < |load.order| && load.order[j] == s;
      assert forall j :: 0 <= j < |load.order| && load.order[j] == load.order[k] ==> j == k;
      Some(load.order[k])
  }

  // ---------------------------------------------------------------- load accounting

  function SumLoads(keys: seq<ServerId>, load: map<ServerId, int>): int
    requires forall i :: 0 <= i < |keys| ==> keys[i] in load
    decreases |keys|
  {
    if keys == [] then 0 else load[keys[0]] + SumLoads(keys[1..], load)
  }

  /** The number of room assignments the directory has counted. */
  function TotalLoad(load: Loads): int
  {
    SumLoads(load.order, load.entries)
  }

  /** Changing the load of a server outside `keys` does not change their sum. */
  lemma {:induction false} SumIgnoresOthers(keys: seq<ServerId>, load: map<ServerId, int>, t: ServerId, v: int)
    requires forall i :: 0 <= i < |keys| ==> keys[i] in load
    requires t !in keys
    ensures SumLoads(keys, load[t := v]) == SumLoads(keys, load)
    decreases |keys|
  {
    if keys != [] {
      SumIgnoresOthers(keys[1..], load, t, v);
    }
  }

  /** Raising one listed server's load by one raises the sum by exactly one. */
  lemma {:induction false} SumBump(keys: seq<ServerId>, load: map<ServerId, int>, t: ServerId)
    requires forall i :: 0 <= i < |keys| ==> keys[i] in load
    requires Distinct(keys) && t in keys
    ensures SumLoads(keys, load[t := load[t] + 1]) == SumLoads(keys, load) + 1
    decreases |keys|
  {
    assert Distinct(keys[1..]);
    if keys[0] == t {
      assert t !in keys[1..];
      SumIgnoresOthers(keys[1..], load, t, load[t] + 1);
    } else {
      SumBump(keys[1..], load, t);
    }
  }

  /** The load table after a room is assigned to `target`. */
  function Bumped(load: Loads, target: ServerId): (r: Loads)
    requires target in load.entries
    ensures r.order == load.order
    ensures r.entries == load.entries[target := load.entries[target] + 1]
    ensures TotalLoad(r) == TotalLoad(load) + 1
  {
    SumBump(load.order, load.entries, target);
    Put(load, target, load.entries[target] + 1)
  }

  /** Every server with a load entry has a registered address. */
  ghost predicate LoadRegistered(servers: Dict<ServerId, Addr>, load: Loads)
  {
    load.entries.Keys <= servers.entries.Keys
  }

  /** A node registered alone, with load zero: its own entry is the only
      one in each table, and the load invariant holds. */
  lemma SelfRegistered(sid: ServerId, a: Addr)
    ensures var servers := Put(Empty<ServerId, Addr>(), sid, a);
            var load := Put(Empty<ServerId, int>(), sid, 0);
            && servers.order == [sid] && servers.entries == map[sid := a]
            && load.order == [sid] && load.entries == map[sid := 0]
            && LoadRegistered(servers, load)
  {
  }

  /** A bound that no id of a list reaches. */
  lemma {:induction false} IdBound(ids: seq<ServerId>) returns (b: ServerId)
    ensures forall i :: 0 <= i < |ids| ==> ids[i] < b
    decreases |ids|
  {
    if ids == [] {
      b := 0;
    } else {
      var rest := IdBound(ids[1..]);
      assert forall i :: 1 <= i < |ids| ==> ids[i] == ids[1..][i - 1];
      b := if ids[0] + 1 > rest then ids[0] + 1 else rest;
    }
  }

  /** Whatever servers are registered, a STATE_SYNC can carry a load entry for
      a server that is not among them, so the sync does not keep
      `LoadRegistered`. */
  lemma SyncCanBreakLoadRegistered(servers: Dict<ServerId, Addr>)
    ensures exists load: Loads :: !LoadRegistered(servers, load)
  {
    var b := IdBound(servers.order);
    var load: Loads := Put(Empty(), b, 0);
    assert b in load.entries && b !in servers.entries;
    assert !LoadRegistered(servers, load);
  }

  // ---------------------------------------------------------------- dispatch as written

  /** The branch an `if`/`elif` chain on the message type takes, where each
      test first looks up the constant's name among those bound: the handler
      of the first name equal to the type `t`, a NameError at the first unbound
      name, or no branch at all. */
  datatype Branch = Handler(name: Name) | NoBranch | NameError(name: Name)

  function SelectBranch(bound: set<Name>, t: Name, chain: seq<Name>): (b: Branch)
    ensures b.Handler? ==> b.name in chain && b.name == t
    ensures b.NameError? ==> b.name in chain && b.name !in bound
    decreases |chain|
  {
    if chain == [] then NoBranch
    else if chain[0] !in bound then NameError(chain[0])
    else if t == chain[0] then Handler(chain[0])
    else SelectBranch(bound, t, chain[1..])
  }

  /** The tests of `handle_message`, in order. */
  const DISPATCH_CHAIN: seq<Name> := [
    SERVER_UP, STATE_SYNC, CLIENT_JOIN, LIST_CHATROOMS, CREATE_CHATROOM,
    JOIN_CHATROOM, ROOM_ASSIGNMENT_UPDATE, CHAT_MSG, ACK, HEARTBEAT, LEADER_ANNOUNCE]

  /** With the names the protocol module binds, every message other than
      SERVER_UP reaches the STATE_SYNC test and raises NameError there.
      SERVER_UP itself gets through, only to meet the same unbound name in
      its reply (`Server.HandleServerUpAsWritten`). */
  lemma DispatchAsWrittenRaises(t: Name)
    ensures t == SERVER_UP ==> SelectBranch(DEFINED_NAMES, t, DISPATCH_CHAIN) == Handler(SERVER_UP)
    ensures t != SERVER_UP ==> SelectBranch(DEFINED_NAMES, t, DISPATCH_CHAIN) == NameError(STATE_SYNC)
  {
    var rest := DISPATCH_CHAIN[1..];
    assert rest[0] == STATE_SYNC && STATE_SYNC !in DEFINED_NAMES;
    assert SelectBranch(DEFINED_NAMES, t, rest) == NameError(STATE_SYNC);
  }

  /** Once every name of the chain is bound, each type reaches its own
      handler and any other type reaches none. */
  lemma {:induction false} DispatchWhenBound(bound: set<Name>, t: Name, chain: seq<Name>)
    requires forall i :: 0 <= i < |chain| ==> chain[i] in bound
    ensures t in chain ==> SelectBranch(bound, t, chain) == Handler(t)
    ensures t !in chain ==> SelectBranch(bound, t, chain) == NoBranch
    decreases |chain|
  {
    if chain != [] {
      assert forall i :: 0 <= i < |chain[1..]| ==> chain[1..][i] == chain[i + 1];
      assert t in chain && t != chain[0] ==> t in chain[1..];
      DispatchWhenBound(bound, t, chain[1..]);
    }
  }

  /** With STATE_SYNC bound as well, as server.py evidently expects, every
      type of the chain reaches its own handler. */
  lemma DispatchFixed(t: Name)
    ensures t in DISPATCH_CHAIN ==> SelectBranch(DEFINED_NAMES + {STATE_SYNC}, t, DISPATCH_CHAIN) == Handler(t)
    ensures t !in DISPATCH_CHAIN ==> SelectBranch(DEFINED_NAMES + {STATE_SYNC}, t, DISPATCH_CHAIN) == NoBranch
  {
    DispatchWhenBound(DEFINED_NAMES + {STATE_SYNC}, t, DISPATCH_CHAIN);
  }

  /** The datagrams a room creation sends: one ROOM_ASSIGNMENT_UPDATE to each
      registered server, then the ROOM_ASSIGNMENT reply to the requester,
      which a target without an address never gets (KeyError). */
  function CreateSends(servers: Dict<ServerId, Addr>, room: RoomName, target: ServerId, from: Addr): (sent: seq<Send>)
    ensures |sent| == |servers.order| + (if target in servers.entries then 1 else 0)
    ensures forall i :: 0 <= i < |servers.order| ==> sent[i] == Send(servers.entries[servers.order[i]], RoomAssignmentUpdate(room, target))
    ensures target in servers.entries ==> sent[|sent| - 1] == Send(from, RoomAssignment(room, servers.entries[target]))
  {
    Broadcast(Values(servers), RoomAssignmentUpdate(room, target))
    + (if target in servers.entries then [Send(from, RoomAssignment(room, servers.entries[target]))] else [])
  }

  /** The room table, load table, sends and outcome after a room creation. */
  datatype CreateResult = CreateResult(chatrooms: Dict<RoomName, ServerId>, load: Loads, sent: seq<Send>, outcome: Outcome)

  /** `handle_create_chatroom` on the tables: with no load entry `min` raises
      ValueError before any change; otherwise the room goes to the least
      loaded server, which is counted, every registered server is told, and
      the requester gets the target's address, or KeyError when the target
      has none. */
  function CreateEffect(servers: Dict<ServerId, Addr>, chatrooms: Dict<RoomName, ServerId>, load: Loads,
                        room: RoomName, from: Addr): (r: CreateResult)
    ensures r.outcome == RaisedValueError <==> load.entries == map[]
    ensures r.outcome == RaisedValueError ==> r.sent == []
    ensures r.outcome != RaisedValueError ==> |r.sent| >= |servers.order|
  {
    match LeastLoaded(load)
    case None => CreateResult(chatrooms, load, [], RaisedValueError)
    case Some(target) =>
      CreateResult(Put(chatrooms, room, target), Bumped(load, target), CreateSends(servers, room, target, from),
                   if target in servers.entries then Returned else RaisedKeyError)
  }

  /** Where a room creation puts the room: ValueError and no change exactly
      when there is no load entry; otherwise the room is owned by a
      least-loaded server and every other room keeps its owner. */
  lemma CreateAssigns(servers: Dict<ServerId, Addr>, chatrooms: Dict<RoomName, ServerId>, load: Loads,
                      room: RoomName, from: Addr)
    ensures var r := CreateEffect(servers, chatrooms, load, room, from);
      && (r.outcome == RaisedValueError <==> load.entries == map[])
      && (r.outcome == RaisedValueError ==> r.chatrooms == chatrooms && r.load == load && r.sent == [])
    ensures load.entries != map[] ==>
      var r := CreateEffect(servers, chatrooms, load, room, from);
      var target := LeastLoaded(load).value;
      && room in r.chatrooms.entries && r.chatrooms.entries[room] == target
      && target in load.entries
      && (forall s :: s in load.entries ==> load.entries[target] <= load.entries[s])
      && (forall q :: q in chatrooms.entries && q != room ==>
            q in r.chatrooms.entries && r.chatrooms.entries[q] == chatrooms.entries[q])
      && r.chatrooms.entries.Keys == chatrooms.entries.Keys + {room}
  {
    if load.entries != map[] {
      var r := CreateEffect(servers, chatrooms, load, room, from);
      assert r.chatrooms == Put(chatrooms, room, LeastLoaded(load).value);
    }
  }

  /** How a room creation counts: the owner's load grows by one, no other
      load changes, the key order stays, and the total grows by one. */
  lemma CreateCounts(servers: Dict<ServerId, Addr>, chatrooms: Dict<RoomName, ServerId>, load: Loads,
                     room: RoomName, from: Addr)
    ensures load.entries != map[] ==>
      var r := CreateEffect(servers, chatrooms, load, room, from);
      var target := LeastLoaded(load).value;
      && r.load.order == load.order
      && r.load.entries == load.entries[target := load.entries[target] + 1]
      && TotalLoad(r.load) == TotalLoad(load) + 1
  {
    if load.entries != map[] {
      var r := CreateEffect(servers, chatrooms, load, room, from);
      assert r.load == Bumped(load, LeastLoaded(load).value);
    }
  }

  /** What a room creation sends: every registered server is told, in dict
      order, who owns the room; the call returns normally exactly when the
      owner has an address, and then the reply with that address comes
      last; otherwise KeyError, after the updates and with no reply. */
  lemma CreateNotifies(servers: Dict<ServerId, Addr>, chatrooms: Dict<RoomName, ServerId>, load: Loads,
                       room: RoomName, from: Addr)
    requires load.entries != map[]
    ensures var r := CreateEffect(servers, chatrooms, load, room, from);
      var target := LeastLoaded(load).value;
      && r.chatrooms.entries[room] == target
      && |r.sent| >= |servers.order|
      && (forall i :: 0 <= i < |servers.order| ==>
            r.sent[i] == Send(servers.entries[servers.order[i]], RoomAssignmentUpdate(room, target)))
      && (r.outcome == Returned <==> target in servers.entries)
      && (r.outcome == Returned ==>
            r.sent == r.sent[..|servers.order|] + [Send(from, RoomAssignment(room, servers.entries[target]))])
      && (r.outcome == RaisedKeyError ==> |r.sent| == |servers.order|)
      && (r.outcome == Returned || r.outcome == RaisedKeyError)
  {
    var target := LeastLoaded(load).value;
    var sent := CreateSends(servers, room, target, from);
    assert target in servers.entries ==> sent == sent[..|servers.order|] + [sent[|sent| - 1]];
  }

  /** Room creation keeps every loaded server registered, and while that
      holds, creation with some load entry always returns normally. */
  lemma CreateKeepsLoadRegistered(servers: Dict<ServerId, Addr>, chatrooms: Dict<RoomName, ServerId>, load: Loads,
                                  room: RoomName, from: Addr)
    requires LoadRegistered(servers, load)
    ensures var r := CreateEffect(servers, chatrooms, load, room, from);
      && LoadRegistered(servers, r.load)
      && (load.entries != map[] ==> r.outcome == Returned)
  {
  }

  // ---------------------------------------------------------------- the node

  class Server {
    const state: ServerState<ServerId>
    /** The node's own address, `("127.0.0.1", port)`. */
    const addr: Addr
    /** Every datagram this node has sent, oldest first. */
    var outbox: seq<Send>

    /** `__init__`: a fresh record in which the node registers itself with
        its own address and a load of zero. */
    constructor (serverId: ServerId, port: int, now: int)
      ensures fresh(state) && state.serverId == serverId
      ensures addr == Addr("127.0.0.1", port) && outbox == []
      ensures state.servers.order == [serverId] && state.servers.entries == map[serverId := addr]
      ensures state.serverLoad.order == [serverId] && state.serverLoad.entries == map[serverId := 0]
      ensures LoadRegistered(state.servers, state.serverLoad)
      ensures !state.isLeader && state.leaderAddr == None && state.lastHeartbeat == now
      ensures state.chatrooms == Empty() && state.clients == Empty() && state.localRooms == Empty()
    {
      state := new ServerState(serverId, now);
      addr := Addr("127.0.0.1", port);
      outbox := [];
      new;
      SelfRegistered(serverId, addr);
      state.servers := Put(state.servers, serverId, addr);
      state.serverLoad := Put(state.serverLoad, serverId, 0);
    }

    /** `handle_server_up`: a follower ignores it; the leader registers the
        new server at the sender's address with load zero (resetting any
        load it had) and replies with its room table and loads. */
    method HandleServerUp(sid: ServerId, from: Addr)
      modifies this`outbox, state`servers, state`serverLoad
      ensures !state.isLeader ==> outbox == old(outbox) && unchanged(state)
      ensures state.isLeader ==>
                && state.servers == Put(old(state.servers), sid, from)
                && state.serverLoad == Put(old(state.serverLoad), sid, 0)
                && outbox == old(outbox) + [Send(from, StateSync(state.chatrooms, state.serverLoad))]
      ensures LoadRegistered(old(state.servers), old(state.serverLoad)) ==> LoadRegistered(state.servers, state.serverLoad)
    {
      if !state.isLeader {
        return;
      }
      state.servers := Put(state.servers, sid, from);
      state.serverLoad := Put(state.serverLoad, sid, 0);
      outbox := outbox + [Send(from, StateSync(state.chatrooms, state.serverLoad))];
    }

    /** `handle_server_up` as written: the reply's type is the name
        STATE_SYNC, which the protocol module never binds, so on the leader
        the handler raises NameError after both table updates and sends
        nothing; a follower still ignores the message. */
    method HandleServerUpAsWritten(sid: ServerId, from: Addr) returns (outcome: Outcome)
      modifies this`outbox, state`servers, state`serverLoad
      ensures !state.isLeader ==> outcome == Returned && outbox == old(outbox) && unchanged(state)
      ensures state.isLeader ==>
                && outcome == RaisedNameError
                && state.servers == Put(old(state.servers), sid, from)
                && state.serverLoad == Put(old(state.serverLoad), sid, 0)
                && outbox == old(outbox)
    {
      outcome := Returned;
      if !state.isLeader {
        return;
      }
      state.servers := Put(state.servers, sid, from);
      state.serverLoad := Put(state.serverLoad, sid, 0);
      var bound := STATE_SYNC in DEFINED_NAMES;
      var reply := Send(from, StateSync(state.chatrooms, state.serverLoad));
      outbox := outbox + (if bound then [reply] else []);
      outcome := if bound then Returned else RaisedNameError;
    }

    /** `handle_state_sync`: the room table and loads are replaced wholesale;
        the registered servers are not touched. */
    method HandleStateSync(chatrooms: Dict<RoomName, ServerId>, serverLoad: Loads)
      modifies state`chatrooms, state`serverLoad
      ensures state.chatrooms == chatrooms && state.serverLoad == serverLoad
      ensures LoadRegistered(state.servers, state.serverLoad) <==> serverLoad.entries.Keys <= state.servers.entries.Keys
    {
      state.chatrooms := chatrooms;
      state.serverLoad := serverLoad;
    }

    /** `handle_client_join`: register the client and reply with the room
        names in creation order.  A "room" field is ignored. */
    method HandleClientJoin(clientId: ClientId, from: Addr)
      modifies this`outbox, state`clients
      ensures state.clients == Put(old(state.clients), clientId, from)
      ensures outbox == old(outbox) + [Send(from, ChatroomsList(state.chatrooms.order))]
      ensures forall r :: r in state.chatrooms.entries <==> r in outbox[|outbox| - 1].msg.rooms
    {
      state.clients := Put(state.clients, clientId, from);
      outbox := outbox + [Send(from, ChatroomsList(state.chatrooms.order))];
    }

    /** LIST_CHATROOMS: reply with the room names in creation order. */
    method HandleListChatrooms(from: Addr)
      modifies this`outbox
      ensures outbox == old(outbox) + [Send(from, ChatroomsList(state.chatrooms.order))]
      ensures forall r :: r in state.chatrooms.entries <==> r in outbox[|outbox| - 1].msg.rooms
    {
      outbox := outbox + [Send(from, ChatroomsList(state.chatrooms.order))];
    }

    /** HEARTBEAT: the leader was heard from at time `now`. */
    method HandleHeartbeat(now: int)
      modifies state`lastHeartbeat
      ensures state.lastHeartbeat == now
      ensures !Heartbeat.LeaderSilent(now + Heartbeat.HEARTBEAT_TIMEOUT, state.lastHeartbeat)
    {
      state.lastHeartbeat := now;
    }

    /** LEADER_ANNOUNCE: the node is leader exactly when the announced id is
        its own; the announcer's address becomes the leader address. */
    method HandleLeaderAnnounce(leaderId: ServerId, from: Addr)
      modifies state`isLeader, state`leaderAddr
      ensures state.isLeader == (leaderId == state.serverId)
      ensures state.leaderAddr == Some(from)
    {
      state.isLeader := leaderId == state.serverId;
      state.leaderAddr := Some(from);
    }

    /** `handle_create_chatroom`: assign the room to the least-loaded server,
        count it, tell every registered server, then tell the requester where
        the room lives.  With no load entry `min` raises ValueError before any
        change; a target without a registered address raises KeyError after
        the assignment and the broadcast. */
    method HandleCreateChatroom(room: RoomName, from: Addr) returns (outcome: Outcome)
      modifies this`outbox, state`chatrooms, state`serverLoad
      ensures var r := CreateEffect(state.servers, old(state.chatrooms), old(state.serverLoad), room, from);
              state.chatrooms == r.chatrooms && state.serverLoad == r.load
              && outbox == old(outbox) + r.sent && outcome == r.outcome
    {
      var target := LeastLoaded(state.serverLoad);
      if target == None {
        return RaisedValueError;
      }
      var t := target.value;
      var servers := state.servers;
      var sent := SendToAll(Values(servers), RoomAssignmentUpdate(room, t));
      outcome := RaisedKeyError;
      if t in servers.entries {
        sent := sent + [Send(from, RoomAssignment(room, servers.entries[t]))];
        outcome := Returned;
      }
      assert sent == CreateSends(servers, room, t, from);
      state.chatrooms := Put(state.chatrooms, room, t);
      state.serverLoad := Bumped(state.serverLoad, t);
      outbox := outbox + sent;
    }

    /** `handle_join_chatroom`: tell the client the address of the server
        that owns the room; an unknown room, or an owner without a registered
        address, raises KeyError and sends nothing. */
    method HandleJoinChatroom(room: RoomName, from: Addr) returns (outcome: Outcome)
      modifies this`outbox
      ensures room !in state.chatrooms.entries ==> outcome == RaisedKeyError && outbox == old(outbox)
      ensures room in state.chatrooms.entries ==>
                var owner := state.chatrooms.entries[room];
                && (owner in state.servers.entries ==>
                      outcome == Returned && outbox == old(outbox) + [Send(from, RoomAssignment(room, state.servers.entries[owner]))])
                && (owner !in state.servers.entries ==> outcome == RaisedKeyError && outbox == old(outbox))
    {
      if room !in state.chatrooms.entries {
        return RaisedKeyError;
      }
      var owner := state.chatrooms.entries[room];
      if owner !in state.servers.entries {
        return RaisedKeyError;
      }
      outbox := outbox + [Send(from, RoomAssignment(room, state.servers.entries[owner]))];
      outcome := Returned;
    }

    /** `handle_room_update`: record the room's owner; when the owner is this
        node, start hosting the room with no members unless it already
        hosts it, whose members are then kept. */
    method HandleRoomUpdate(room: RoomName, sid: ServerId)
      modifies state`chatrooms, state`localRooms
      ensures state.chatrooms == Put(old(state.chatrooms), room, sid)
      ensures sid != state.serverId ==> state.localRooms == old(state.localRooms)
      ensures sid == state.serverId ==>
                && state.localRooms.entries.Keys == old(state.localRooms).entries.Keys + {room}
                && (forall r :: r in old(state.localRooms).entries ==>
                      state.localRooms.entries[r] == old(state.localRooms).entries[r])
                && (room !in old(state.localRooms).entries ==> state.localRooms.entries[room] == {})
    {
      state.chatrooms := Put(state.chatrooms, room, sid);
      if sid == state.serverId && room !in state.localRooms.entries {
        state.localRooms := Put(state.localRooms, room, {});
      }
    }

    /** `handle_chat_message`: a message for a room this node does not host
        is dropped; otherwise it goes to every registered client, in
        registration order, whatever room they are in and the sender too. */
    method HandleChatMessage(msg: Message)
      requires msg.ChatMsg?
      modifies this`outbox
      ensures msg.room !in state.localRooms.entries ==> outbox == old(outbox)
      ensures msg.room in state.localRooms.entries ==>
                outbox == old(outbox) + Broadcast(Values(state.clients), msg)
    {
      if msg.room !in state.localRooms.entries {
        return;
      }
      var sent := SendToAll(Values(state.clients), msg);
      outbox := outbox + sent;
    }

    /** One iteration of the heartbeat send loop. */
    method HeartbeatTick()
      modifies this`outbox
      ensures state.isLeader ==> outbox == old(outbox) + Broadcast(Values(state.servers), Heartbeat(state.serverId))
      ensures !state.isLeader ==> outbox == old(outbox)
    {
      var sent := Heartbeat.SendTick(state);
      outbox := outbox + sent;
    }

    /** One iteration of the heartbeat monitor loop as written: this class
        has no `start_election`, so a follower whose leader has gone silent
        raises AttributeError at the call and nothing changes. */
    method MonitorTickAsWritten(now: int) returns (outcome: Outcome)
      ensures outcome == RaisedAttributeError <==> !state.isLeader && Heartbeat.LeaderSilent(now, state.lastHeartbeat)
      ensures outcome == Returned || outcome == RaisedAttributeError
    {
      var fire := Heartbeat.MonitorTick(state, now);
      outcome := if fire then RaisedAttributeError else Returned;
    }

    /** The monitor tick with the election it evidently means to start:
        the node's election manager runs `start_election`. */
    method MonitorTick(now: int) returns (elected: bool)
      modifies this`outbox, state`isLeader, state`leaderAddr
      ensures elected <==> !old(state.isLeader) && Heartbeat.LeaderSilent(now, state.lastHeartbeat)
      ensures !elected ==> outbox == old(outbox) && state.isLeader == old(state.isLeader)
                           && state.leaderAddr == old(state.leaderAddr)
      ensures elected ==>
                && outbox == old(outbox)
                   + Broadcast(Values(state.servers), LeaderAnnounce(Election.LeaderChoice(state.servers.order, state.serverId)))
                && Election.Role(state.isLeader, state.leaderAddr)
                   == Election.ElectionOutcome(state.servers, state.serverId, addr,
                                               Election.Role(old(state.isLeader), old(state.leaderAddr)))
    {
      elected := Heartbeat.MonitorTick(state, now);
      if elected {
        var sent := Election.StartElection(state, addr);
        outbox := outbox + sent;
      }
    }

    /** The message types clients send and `handle_message` acts on, apart
        from CREATE_CHATROOM, the one that changes the room and load tables. */
    static predicate IsClientRequest(msg: Message)
    {
      msg.ClientJoin? || msg.ListChatrooms? || msg.JoinChatroom? || msg.ChatMsg?
    }

    /** The message types other servers send and `handle_message` acts on. */
    static predicate IsServerMessage(msg: Message)
    {
      msg.ServerUp? || msg.StateSync? || msg.RoomAssignmentUpdate? || msg.Heartbeat? || msg.LeaderAnnounce?
    }

    /** What a client request does, from the state before to the state after:
        the effect of its handler above, and no other table changes. */
    twostate predicate ClientRequestEffect(msg: Message, from: Addr, outcome: Outcome)
      reads this, state
    {
      && (msg.ClientJoin? ==>
            && state.clients == Put(old(state.clients), msg.clientId, from)
            && outbox == old(outbox) + [Send(from, ChatroomsList(state.chatrooms.order))])
      && (msg.ListChatrooms? ==> outbox == old(outbox) + [Send(from, ChatroomsList(state.chatrooms.order))])
      && (msg.JoinChatroom? ==>
            if msg.room in state.chatrooms.entries && state.chatrooms.entries[msg.room] in state.servers.entries
            then outcome == Returned
                 && outbox == old(outbox) + [Send(from, RoomAssignment(msg.room,
                                               state.servers.entries[state.chatrooms.entries[msg.room]]))]
            else outcome == RaisedKeyError && outbox == old(outbox))
      && (msg.ChatMsg? && msg.room !in state.localRooms.entries ==> outbox == old(outbox))
      && (msg.ChatMsg? && msg.room in state.localRooms.entries ==>
            outbox == old(outbox) + Broadcast(Values(state.clients), msg))
      && (!msg.JoinChatroom? ==> outcome == Returned)
      && state.serverLoad == old(state.serverLoad) && state.chatrooms == old(state.chatrooms)
      && (!msg.ClientJoin? ==> state.clients == old(state.clients))
      && state.servers == old(state.servers) && state.localRooms == old(state.localRooms)
      && state.lastHeartbeat == old(state.lastHeartbeat)
      && state.isLeader == old(state.isLeader) && state.leaderAddr == old(state.leaderAddr)
    }

    /** What a server message does, from the state before to the state after:
        the effect of its handler above, and no other table changes. */
    twostate predicate ServerMessageEffect(msg: Message, from: Addr, now: int)
      reads this, state
    {
      && (msg.ServerUp? && !state.isLeader ==>
            outbox == old(outbox) && state.servers == old(state.servers) && state.serverLoad == old(state.serverLoad))
      && (msg.ServerUp? && state.isLeader ==>
            && state.servers == Put(old(state.servers), msg.serverId, from)
            && state.serverLoad == Put(old(state.serverLoad), msg.serverId, 0)
            && outbox == old(outbox) + [Send(from, StateSync(state.chatrooms, state.serverLoad))])
      && (msg.StateSync? ==> state.chatrooms == msg.chatrooms && state.serverLoad == msg.serverLoad)
      && (msg.RoomAssignmentUpdate? ==>
            && state.chatrooms == Put(old(state.chatrooms), msg.room, msg.serverId)
            && (msg.serverId != state.serverId ==> state.localRooms == old(state.localRooms))
            && (msg.serverId == state.serverId ==>
                  && state.localRooms.entries.Keys == old(state.localRooms).entries.Keys + {msg.room}
                  && (forall r :: r in old(state.localRooms).entries ==>
                        state.localRooms.entries[r] == old(state.localRooms).entries[r])
                  && (msg.room !in old(state.localRooms).entries ==> state.localRooms.entries[msg.room] == {})))
      && (msg.Heartbeat? ==> state.lastHeartbeat == now)
      && (msg.LeaderAnnounce? ==>
            state.isLeader == (msg.leaderId == state.serverId) && state.leaderAddr == Some(from))
      && (!msg.ServerUp? ==> outbox == old(outbox) && state.servers == old(state.servers))
      && (!(msg.ServerUp? || msg.StateSync?) ==> state.serverLoad == old(state.serverLoad))
      && (!(msg.StateSync? || msg.RoomAssignmentUpdate?) ==> state.chatrooms == old(state.chatrooms))
      && (!msg.RoomAssignmentUpdate? ==> state.localRooms == old(state.localRooms))
      && (!msg.Heartbeat? ==> state.lastHeartbeat == old(state.lastHeartbeat))
      && (!msg.LeaderAnnounce? ==> state.isLeader == old(state.isLeader) && state.leaderAddr == old(state.leaderAddr))
      && state.clients == old(state.clients)
      && (!msg.StateSync? && LoadRegistered(old(state.servers), old(state.serverLoad)) ==>
            LoadRegistered(state.servers, state.serverLoad))
    }

    /** The branches of `handle_message` for what clients send. */
    method HandleClientRequest(msg: Message, from: Addr) returns (outcome: Outcome)
      requires IsClientRequest(msg)
      modifies this`outbox, state`clients
      ensures ClientRequestEffect(msg, from, outcome)
    {
      outcome := Returned;
      match msg
      case ClientJoin(clientId, _) =>
        HandleClientJoin(clientId, from);
      case ListChatrooms =>
        HandleListChatrooms(from);
      case JoinChatroom(room) =>
        outcome := HandleJoinChatroom(room, from);
      case ChatMsg(_, _, _, _) =>
        HandleChatMessage(msg);
    }

    /** The branches of `handle_message` for what other servers send. */
    method HandleServerMessage(msg: Message, from: Addr, now: int)
      requires IsServerMessage(msg)
      modifies this`outbox, state`servers, state`serverLoad, state`chatrooms,
               state`localRooms, state`lastHeartbeat, state`isLeader, state`leaderAddr
      ensures ServerMessageEffect(msg, from, now)
    {
      match msg
      case ServerUp(sid) =>
        HandleServerUp(sid, from);
      case StateSync(chatrooms, serverLoad) =>
        HandleStateSync(chatrooms, serverLoad);
      case RoomAssignmentUpdate(room, sid) =>
        HandleRoomUpdate(room, sid);
      case Heartbeat(_) =>
        HandleHeartbeat(now);
      case LeaderAnnounce(leaderId) =>
        HandleLeaderAnnounce(leaderId, from);
    }

    /** `handle_message`, with every type constant bound: dispatch on the
        message type.  Each type the dispatcher acts on has its handler's
        effect and leaves every other table alone; ACK is accepted and
        ignored, and so is any type without a branch. */
    method HandleMessage(msg: Message, from: Addr, now: int) returns (outcome: Outcome)
      modifies this`outbox, state`servers, state`serverLoad, state`chatrooms, state`clients,
               state`localRooms, state`lastHeartbeat, state`isLeader, state`leaderAddr
      ensures IsClientRequest(msg) ==> ClientRequestEffect(msg, from, outcome)
      ensures msg.CreateChatroom? ==>
                && (var r := CreateEffect(state.servers, old(state.chatrooms), old(state.serverLoad), msg.room, from);
                    state.chatrooms == r.chatrooms && state.serverLoad == r.load
                    && outbox == old(outbox) + r.sent && outcome == r.outcome)
                && state.servers == old(state.servers) && state.clients == old(state.clients)
                && state.localRooms == old(state.localRooms) && state.lastHeartbeat == old(state.lastHeartbeat)
                && state.isLeader == old(state.isLeader) && state.leaderAddr == old(state.leaderAddr)
      ensures IsServerMessage(msg) ==> ServerMessageEffect(msg, from, now) && outcome == Returned
      ensures !(IsClientRequest(msg) || msg.CreateChatroom? || IsServerMessage(msg)) ==>
                outcome == Returned && outbox == old(outbox) && unchanged(state)
    {
      outcome := Returned;
      if IsClientRequest(msg) {
        outcome := HandleClientRequest(msg, from);
      } else if msg.CreateChatroom? {
        outcome := HandleCreateChatroom(msg.room, from);
      } else if IsServerMessage(msg) {
        HandleServerMessage(msg, from, now);
      }
    }
  }
}
