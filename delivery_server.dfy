/** The room-hosting node of server/server.py: it keeps room membership,
    fans chat messages out to the members of a room, tracks which members
    still owe an ACK for each message, confirms delivery to the sender and
    asks the sender to resend messages that stay unacknowledged too long. */
module DeliveryServer {
  import opened Wrappers
  import opened Dicts
  import opened Protocol
  import opened State
  import Election
  import Heartbeat

  /** Seconds after which an unacknowledged message is resend-requested. */
  const ACK_TIMEOUT := 5
  /** The room a CLIENT_JOIN without a "room" field joins. */
  const DEFAULT_ROOM: RoomName := "default"

  type Rooms = Dict<RoomName, set<ClientId>>
  type Clients = Dict<ClientId, Addr>
  type Pending = Dict<MsgId, PendingAck>

  // ---------------------------------------------------------------- membership

  /** Every member of every room is a registered client.  This is what makes
      the lookup `clients[cid]` of the fan-out safe. */
  ghost predicate MembersRegistered(rooms: Rooms, clients: Clients)
  {
    forall room, cid :: room in rooms.entries && cid in rooms.entries[room] ==> cid in clients.entries
  }

  /** `chatrooms.get(room, set())` */
  function Members(rooms: Rooms, room: RoomName): set<ClientId>
  {
    if room in rooms.entries then rooms.entries[room] else {}
  }

  /** `chatrooms.setdefault(room, set()).add(cid)`: the room exists afterwards
      and has gained `cid`; no other room changes. */
  function WithMember(rooms: Rooms, room: RoomName, cid: ClientId): (r: Rooms)
    ensures r.entries.Keys == rooms.entries.Keys + {room}
    ensures r.entries[room] == Members(rooms, room) + {cid}
    ensures forall other :: other in rooms.entries && other != room ==> r.entries[other] == rooms.entries[other]
  {
    Put(rooms, room, Members(rooms, room) + {cid})
  }

  /** A join registers the client before it adds it to a room, so the
      invariant survives it. */
  lemma JoinKeepsMembersRegistered(rooms: Rooms, clients: Clients, room: RoomName, cid: ClientId, addr: Addr)
    requires MembersRegistered(rooms, clients)
    ensures MembersRegistered(WithMember(rooms, room, cid), Put(clients, cid, addr))
  {
  }

  /** Repeating a join changes nothing more. */
  lemma JoinIdempotent(rooms: Rooms, room: RoomName, cid: ClientId)
    ensures WithMember(WithMember(rooms, room, cid), room, cid) == WithMember(rooms, room, cid)
  {
  }

  // ---------------------------------------------------------------- fan-out

  /** `order` lists every element of `s` exactly once. */
  ghost predicate Enumerates(order: seq<ClientId>, s: set<ClientId>)
  {
    Distinct(order) && forall c :: c in order <==> c in s
  }

  /** `sent` is one copy of `msg` to the address of each member, in some
      iteration order of the set. */
  ghost predicate FansOut(sent: seq<Send>, members: set<ClientId>, clients: Clients, msg: Message)
    requires members <= clients.entries.Keys
  {
    exists order :: Enumerates(order, members) && SentInOrder(sent, order, clients, msg)
  }

  /** `sent[k]` is `msg` to the address of `order[k]`, for every `k`. */
  ghost predicate SentInOrder(sent: seq<Send>, order: seq<ClientId>, clients: Clients, msg: Message)
  {
    && |sent| == |order|
    && forall k :: 0 <= k < |order| ==> order[k] in clients.entries && sent[k] == Send(clients.entries[order[k]], msg)
  }

  /** `for cid in recipients: send(clients[cid], msg)` */
  method SendToMembers(members: set<ClientId>, clients: Clients, msg: Message) returns (sent: seq<Send>)
    requires members <= clients.entries.Keys
    ensures FansOut(sent, members, clients, msg)
  {
    sent := [];
    ghost var order: seq<ClientId> := [];
    var rest := members;
    while rest != {}
      invariant rest <= members
      invariant Distinct(order)
      invariant forall c :: c in order <==> c in members && c !in rest
      invariant SentInOrder(sent, order, clients, msg)
      decreases rest
    {
      var cid :| cid in rest;
      sent := sent + [Send(clients.entries[cid], msg)];
      order := order + [cid];
      rest := rest - {cid};
    }
    assert Enumerates(order, members);
  }

  /** A fan-out sends exactly as many copies as there are members, each one
      the message itself, and every member's address receives one. */
  lemma {:induction false} FanOutReachesEachMember(sent: seq<Send>, members: set<ClientId>, clients: Clients, msg: Message)
    requires members <= clients.entries.Keys
    requires FansOut(sent, members, clients, msg)
    ensures |sent| == |members|
    ensures forall s :: s in sent ==> s.msg == msg
    ensures forall cid :: cid in members ==> Send(clients.entries[cid], msg) in sent
  {
    var order :| Enumerates(order, members) && SentInOrder(sent, order, clients, msg);
    DistinctCard(order);
    assert (set x | x in order) == members;
    forall cid | cid in members
      ensures Send(clients.entries[cid], msg) in sent
    {
      var k :| 0 <= k < |order| && order[k] == cid;
      assert sent[k] == Send(clients.entries[cid], msg);
    }
  }

  // ---------------------------------------------------------------- acknowledgements

  /** Between two tracker states no entry appeared and no waiting set grew;
      each surviving entry keeps its sender, room and message. */
  ghost predicate Shrinks(before: Pending, after: Pending)
  {
    && after.entries.Keys <= before.entries.Keys
    && forall id :: id in after.entries ==>
         && after.entries[id].waitingFor <= before.entries[id].waitingFor
         && after.entries[id].sender == before.entries[id].sender
         && after.entries[id].room == before.entries[id].room
         && after.entries[id].message == before.entries[id].message
  }

  /** The tracker, the sends and the outcome after one ACK. */
  datatype AckResult = AckResult(pending: Pending, sent: seq<Send>, outcome: Outcome)

  /** `handle_ack(msg_id, from)`: drop the acking client from the entry's
      waiting set; when the set becomes empty, confirm to the sender and
      delete the entry.  A sender that never joined has no address, and the
      lookup raises KeyError after the waiting set was already emptied. */
  function AckEffect(pending: Pending, clients: Clients, msgId: MsgId, from: ClientId): (r: AckResult)
    ensures r.pending.entries.Keys <= pending.entries.Keys
    ensures |r.sent| <= 1
    ensures r.outcome == Returned || r.outcome == RaisedKeyError
  {
    if msgId !in pending.entries then AckResult(pending, [], Returned)
    else
      var entry := pending.entries[msgId];
      var left := entry.waitingFor - {from};
      var discarded := Put(pending, msgId, entry.(waitingFor := left));
      if left != {} then AckResult(discarded, [], Returned)
      else if entry.sender !in clients.entries then AckResult(discarded, [], RaisedKeyError)
      else AckResult(Remove(discarded, msgId), [Send(clients.entries[entry.sender], Delivered(msgId))], Returned)
  }

  /** What one ACK does to the tracker: waiting sets only shrink and
      nothing else in an entry changes; an unknown id is a no-op; only the
      acking client leaves the entry's waiting set, whether or not it was
      waited for, and every other entry is untouched. */
  lemma AckShrinks(pending: Pending, clients: Clients, msgId: MsgId, from: ClientId)
    ensures var r := AckEffect(pending, clients, msgId, from);
      && Shrinks(pending, r.pending)
      && (msgId !in pending.entries ==> r == AckResult(pending, [], Returned))
      && (forall id :: id in pending.entries && id != msgId ==>
            id in r.pending.entries && r.pending.entries[id] == pending.entries[id])
      && (msgId in r.pending.entries ==>
            r.pending.entries[msgId] == pending.entries[msgId].(waitingFor := pending.entries[msgId].waitingFor - {from}))
  {
    if msgId in pending.entries {
      var entry := pending.entries[msgId];
      var discarded := Put(pending, msgId, entry.(waitingFor := entry.waitingFor - {from}));
      var r := AckEffect(pending, clients, msgId, from);
      assert r.pending == discarded || r.pending == Remove(discarded, msgId);
    }
  }

  /** What one ACK sends: exactly one DELIVERED, to the sender, when the
      waiting set empties and the sender is registered, and the entry is then
      gone; when the sender is not registered, KeyError instead; otherwise
      nothing. */
  lemma AckDelivers(pending: Pending, clients: Clients, msgId: MsgId, from: ClientId)
    ensures var r := AckEffect(pending, clients, msgId, from);
      && (r.outcome == Returned || r.outcome == RaisedKeyError)
      && (r.sent != [] <==>
            msgId in pending.entries && pending.entries[msgId].waitingFor <= {from}
            && pending.entries[msgId].sender in clients.entries)
      && (r.sent != [] ==>
            r.sent == [Send(clients.entries[pending.entries[msgId].sender], Delivered(msgId))]
            && msgId !in r.pending.entries && r.outcome == Returned)
      && (msgId in pending.entries && r.sent == [] ==> msgId in r.pending.entries)
      && (r.outcome == RaisedKeyError <==>
            msgId in pending.entries && pending.entries[msgId].waitingFor <= {from}
            && pending.entries[msgId].sender !in clients.entries)
  {
  }

  /** Once a message was confirmed, its entry is gone for good: any later ACK
      for it changes nothing and sends nothing. */
  lemma DeliveredStaysDead(pending: Pending, clients: Clients, msgId: MsgId, from: ClientId, later: ClientId)
    requires AckEffect(pending, clients, msgId, from).sent != []
    ensures var after := AckEffect(pending, clients, msgId, from).pending;
            AckEffect(after, clients, msgId, later) == AckResult(after, [], Returned)
  {
    AckDelivers(pending, clients, msgId, from);
  }

  /** Processes a sequence of ACKs for one message, stopping at an exception. */
  function AckAll(pending: Pending, clients: Clients, msgId: MsgId, ackers: seq<ClientId>): AckResult
    decreases |ackers|
  {
    if ackers == [] then AckResult(pending, [], Returned)
    else
      var first := AckEffect(pending, clients, msgId, ackers[0]);
      if first.outcome != Returned then first
      else
        var rest := AckAll(first.pending, clients, msgId, ackers[1..]);
        AckResult(rest.pending, first.sent + rest.sent, rest.outcome)
  }

  /** Delivery completion: when every client the message waits for has
      ACKed (in any order, with repeats and strangers mixed in) and the sender
      is registered, exactly one DELIVERED has gone to the sender and the
      entry is gone. */
  lemma {:induction false} AllAcksDeliverOnce(pending: Pending, clients: Clients, msgId: MsgId, ackers: seq<ClientId>)
    requires msgId in pending.entries
    requires pending.entries[msgId].sender in clients.entries
    requires forall c :: c in pending.entries[msgId].waitingFor ==> c in ackers
    requires pending.entries[msgId].waitingFor != {} || ackers != []
    ensures var r := AckAll(pending, clients, msgId, ackers);
            && r.outcome == Returned
            && msgId !in r.pending.entries
            && r.sent == [Send(clients.entries[pending.entries[msgId].sender], Delivered(msgId))]
    decreases |ackers|
  {
    var entry := pending.entries[msgId];
    var first := AckEffect(pending, clients, msgId, ackers[0]);
    AckShrinks(pending, clients, msgId, ackers[0]);
    AckDelivers(pending, clients, msgId, ackers[0]);
    if first.sent == [] {
      var after := first.pending.entries[msgId];
      assert after.waitingFor == entry.waitingFor - {ackers[0]};
      assert ackers[1..] != [] by {
        var c :| c in entry.waitingFor && c != ackers[0];
      }
      forall c | c in after.waitingFor
        ensures c in ackers[1..]
      {
        var i :| 0 <= i < |ackers| && ackers[i] == c;
        assert i != 0;
        assert ackers[1..][i - 1] == c;
      }
      AllAcksDeliverOnce(first.pending, clients, msgId, ackers[1..]);
    } else {
      AcksAfterDeliveryAreSilent(first.pending, clients, msgId, ackers[1..]);
    }
  }

  /** ACKs for a message with no entry change nothing and send nothing. */
  lemma {:induction false} AcksAfterDeliveryAreSilent(pending: Pending, clients: Clients, msgId: MsgId, ackers: seq<ClientId>)
    requires msgId !in pending.entries
    ensures AckAll(pending, clients, msgId, ackers) == AckResult(pending, [], Returned)
    decreases |ackers|
  {
    if ackers != [] {
      AcksAfterDeliveryAreSilent(pending, clients, msgId, ackers[1..]);
    }
  }

  // ---------------------------------------------------------------- resend sweep

  predicate Overdue(entry: PendingAck, now: int)
  {
    now - entry.timestamp > ACK_TIMEOUT
  }

  /** The sweep's effect on one entry: an overdue entry has its timestamp
      re-armed to `now`; any other entry is left alone. */
  function Rearmed(entry: PendingAck, now: int): PendingAck
  {
    if Overdue(entry, now) then entry.(timestamp := now) else entry
  }

  function Rearm(now: int): MsgId -> PendingAck -> PendingAck
  {
    id => entry => Rearmed(entry, now)
  }

  /** Every overdue entry's sender has a registered address. */
  ghost predicate OverdueSendersKnown(pending: Pending, clients: Clients, now: int)
  {
    forall id :: id in pending.entries && Overdue(pending.entries[id], now) ==> pending.entries[id].sender in clients.entries
  }

  /** The RESEND_REQUESTs a sweep over the keys `ids` sends, in key order. */
  function ResendsDue(ids: seq<MsgId>, pending: Pending, clients: Clients, now: int): seq<Send>
    requires forall id :: id in ids ==> id in pending.entries
    requires forall id :: id in ids && Overdue(pending.entries[id], now) ==> pending.entries[id].sender in clients.entries
    decreases |ids|
  {
    if ids == [] then []
    else
      var id := ids[|ids| - 1];
      var entry := pending.entries[id];
      ResendsDue(ids[..|ids| - 1], pending, clients, now)
      + (if Overdue(entry, now) then [Send(clients.entries[entry.sender], ResendRequest(id))] else [])
  }

  /** A sweep asks exactly the senders of overdue entries to resend: every
      request names an overdue message and goes to its sender, every overdue
      message gets a request, and no message gets two. */
  lemma {:induction false} ResendsDueExact(ids: seq<MsgId>, pending: Pending, clients: Clients, now: int)
    requires forall id :: id in ids ==> id in pending.entries
    requires forall id :: id in ids && Overdue(pending.entries[id], now) ==> pending.entries[id].sender in clients.entries
    ensures var r := ResendsDue(ids, pending, clients, now);
            && (forall s :: s in r ==>
                  && s.msg.ResendRequest?
                  && s.msg.msgId in ids
                  && Overdue(pending.entries[s.msg.msgId], now)
                  && s.dest == clients.entries[pending.entries[s.msg.msgId].sender])
            && (forall id :: id in ids && Overdue(pending.entries[id], now) ==>
                  Send(clients.entries[pending.entries[id].sender], ResendRequest(id)) in r)
            && (Distinct(ids) ==> forall i, j :: 0 <= i < j < |r| ==> r[i].msg.msgId != r[j].msg.msgId)
    decreases |ids|
  {
    if ids != [] {
      var id := ids[|ids| - 1];
      var front := ids[..|ids| - 1];
      assert forall x :: x in ids ==> x in front || x == id;
      assert Distinct(ids) ==> id !in front;
      ResendsDueExact(front, pending, clients, now);
    }
  }

  /** The tracker's entries once the keys in `done` have been swept. */
  ghost function SweptUpTo(pending: Pending, done: set<MsgId>, now: int): map<MsgId, PendingAck>
  {
    map id | id in pending.entries :: if id in done then Rearmed(pending.entries[id], now) else pending.entries[id]
  }

  /** The state of the sweep after its first `i` keys: `done` holds them,
      their entries are re-armed, their overdue senders were all known and
      their requests were sent. */
  ghost predicate SweptPrefix(pending: Pending, clients: Clients, now: int, i: nat,
                              done: set<MsgId>, entries: map<MsgId, PendingAck>, sent: seq<Send>)
  {
    && i <= |pending.order|
    && (forall x :: x in done <==> x in pending.order[..i])
    && entries == SweptUpTo(pending, done, now)
    && (forall id :: id in done && Overdue(pending.entries[id], now) ==> pending.entries[id].sender in clients.entries)
    && sent == ResendsDue(pending.order[..i], pending, clients, now)
  }

  /** The next key either raises (overdue, unknown sender) or extends the
      swept prefix by one. */
  lemma SweepStep(pending: Pending, clients: Clients, now: int, i: nat,
                  done: set<MsgId>, entries: map<MsgId, PendingAck>, sent: seq<Send>)
    requires SweptPrefix(pending, clients, now, i, done, entries, sent) && i < |pending.order|
    ensures var id := pending.order[i];
            && id in entries && entries[id] == pending.entries[id]
            && (Overdue(entries[id], now) && entries[id].sender !in clients.entries ==>
                  && RawDict(pending.order, entries).Valid()
                  && SweepSpec(pending, clients, now, RawDict(pending.order, entries), sent, RaisedKeyError))
            && (Overdue(entries[id], now) && entries[id].sender in clients.entries ==>
                  SweptPrefix(pending, clients, now, i + 1, done + {id},
                              entries[id := Rearmed(entries[id], now)],
                              sent + [Send(clients.entries[entries[id].sender], ResendRequest(id))]))
            && (!Overdue(entries[id], now) ==>
                  SweptPrefix(pending, clients, now, i + 1, done + {id}, entries, sent))
  {
    var ids := pending.order;
    var id := ids[i];
    assert id !in done;
    assert forall x :: x in ids[..i + 1] <==> x in ids[..i] || x == id;
    SweptUpToStep(pending, done, id, now);
    if !Overdue(pending.entries[id], now) || pending.entries[id].sender in clients.entries {
      ResendsDueStep(ids, i, pending, clients, now);
    } else {
      SweepStops(pending, clients, now, i, done, entries, sent);
      assert !OverdueSendersKnown(pending, clients, now);
    }
  }

  lemma SweptUpToStep(pending: Pending, done: set<MsgId>, id: MsgId, now: int)
    requires id in pending.entries && id !in done
    ensures SweptUpTo(pending, done + {id}, now)
         == if Overdue(pending.entries[id], now)
            then SweptUpTo(pending, done, now)[id := Rearmed(pending.entries[id], now)]
            else SweptUpTo(pending, done, now)
  {
  }

  lemma ResendsDueStep(ids: seq<MsgId>, i: nat, pending: Pending, clients: Clients, now: int)
    requires i < |ids|
    requires forall id :: id in ids ==> id in pending.entries
    requires forall id :: id in ids[..i + 1] && Overdue(pending.entries[id], now) ==> pending.entries[id].sender in clients.entries
    ensures ResendsDue(ids[..i + 1], pending, clients, now)
         == ResendsDue(ids[..i], pending, clients, now)
            + (if Overdue(pending.entries[ids[i]], now)
               then [Send(clients.entries[pending.entries[ids[i]].sender], ResendRequest(ids[i]))] else [])
  {
    assert ids[..i + 1][..i] == ids[..i];
  }

  /** Whatever prefix was swept, the keys are the old ones and every entry is
      either untouched or re-armed. */
  lemma SweptUpToShape(pending: Pending, done: set<MsgId>, now: int)
    ensures RawDict(pending.order, SweptUpTo(pending, done, now)).Valid()
    ensures forall id :: id in pending.entries ==>
              SweptUpTo(pending, done, now)[id] == pending.entries[id]
              || SweptUpTo(pending, done, now)[id] == Rearmed(pending.entries[id], now)
  {
  }

  /** The sweep stopped at key position `i`: the entry there is the first
      overdue one whose sender has no address, the entries before it were
      re-armed and their senders asked to resend, and it and every later
      entry are as they were. */
  ghost predicate StoppedAt(pending: Pending, clients: Clients, now: int, i: nat,
                            entries: map<MsgId, PendingAck>, sent: seq<Send>)
  {
    && i < |pending.order|
    && Overdue(pending.entries[pending.order[i]], now)
    && pending.entries[pending.order[i]].sender !in clients.entries
    && (forall id :: id in pending.order[..i] && Overdue(pending.entries[id], now) ==>
          pending.entries[id].sender in clients.entries)
    && entries == SweptUpTo(pending, (set id | id in pending.order[..i]), now)
    && sent == ResendsDue(pending.order[..i], pending, clients, now)
  }

  /** The sweep raised: it stopped at some key position. */
  ghost predicate StoppedSomewhere(pending: Pending, clients: Clients, now: int,
                                   entries: map<MsgId, PendingAck>, sent: seq<Send>)
  {
    exists i: nat :: StoppedAt(pending, clients, now, i, entries, sent)
  }

  /** A raise at key position `i` leaves the sweep stopped there. */
  lemma SweepStops(pending: Pending, clients: Clients, now: int, i: nat,
                   done: set<MsgId>, entries: map<MsgId, PendingAck>, sent: seq<Send>)
    requires SweptPrefix(pending, clients, now, i, done, entries, sent) && i < |pending.order|
    requires Overdue(pending.entries[pending.order[i]], now)
    requires pending.entries[pending.order[i]].sender !in clients.entries
    ensures RawDict(pending.order, entries).Valid() && entries.Keys == pending.entries.Keys
    ensures forall id :: id in pending.entries ==>
              entries[id] == pending.entries[id] || entries[id] == Rearmed(pending.entries[id], now)
    ensures StoppedSomewhere(pending, clients, now, entries, sent)
  {
    SweptUpToShape(pending, done, now);
    assert done == set id | id in pending.order[..i];
    assert StoppedAt(pending, clients, now, i, entries, sent);
  }

  /** After a full pass, the tracker is the old one with every entry re-armed. */
  lemma SweptEverything(pending: Pending, clients: Clients, now: int,
                        done: set<MsgId>, entries: map<MsgId, PendingAck>, sent: seq<Send>)
    requires SweptPrefix(pending, clients, now, |pending.order|, done, entries, sent)
    ensures RawDict(pending.order, entries).Valid()
    ensures SweepSpec(pending, clients, now, RawDict(pending.order, entries), sent, Returned)
  {
    SweptUpToShape(pending, done, now);
    assert pending.order[..|pending.order|] == pending.order;
    assert entries == MapValues(pending, Rearm(now)).entries;
  }

  /** What one sweep promises, whichever way it ends: the keys and their
      order stay, each entry is untouched or re-armed, and it returns
      normally exactly when every overdue sender is registered.  Then every
      entry is re-armed and the requests are `ResendsDue`; otherwise it
      stopped at the first overdue entry with an unknown sender. */
  ghost predicate SweepSpec(pending: Pending, clients: Clients, now: int, swept: Pending, sent: seq<Send>, outcome: Outcome)
  {
    && swept.order == pending.order && swept.entries.Keys == pending.entries.Keys
    && (forall id :: id in pending.entries ==>
          swept.entries[id] == pending.entries[id] || swept.entries[id] == Rearmed(pending.entries[id], now))
    && (outcome == Returned <==> OverdueSendersKnown(pending, clients, now))
    && (outcome == Returned || outcome == RaisedKeyError)
    && (outcome == Returned ==>
          && swept == MapValues(pending, Rearm(now))
          && sent == ResendsDue(pending.order, pending, clients, now))
    && (outcome == RaisedKeyError ==> StoppedSomewhere(pending, clients, now, swept.entries, sent))
  }

  /** One iteration of the resend monitor at time `now`, over a snapshot of
      the tracker's entries in key order.  When every overdue sender is
      registered, each overdue entry is re-armed and its sender gets one
      RESEND_REQUEST; otherwise the first overdue entry with an unknown sender
      raises KeyError and ends the sweep, after the entries before it were
      handled.  Either way the keys stay as they were and no entry changes
      except for a re-armed timestamp. */
  method Sweep(pending: Pending, clients: Clients, now: int) returns (swept: Pending, sent: seq<Send>, outcome: Outcome)
    ensures SweepSpec(pending, clients, now, swept, sent, outcome)
  {
    sent, outcome := [], Returned;
    var ids := pending.order;
    var entries := pending.entries;
    ghost var done: set<MsgId> := {};
    var i := 0;
    while i < |ids|
      invariant SweptPrefix(pending, clients, now, i, done, entries, sent)
    {
      SweepStep(pending, clients, now, i, done, entries, sent);
      var id := ids[i];
      var entry := entries[id];
      if Overdue(entry, now) {
        if entry.sender !in clients.entries {
          swept, outcome := RawDict(ids, entries), RaisedKeyError;
          return;
        }
        sent := sent + [Send(clients.entries[entry.sender], ResendRequest(id))];
        entries := entries[id := Rearmed(entry, now)];
      }
      done := done + {id};
      i := i + 1;
    }
    SweptEverything(pending, clients, now, done, entries, sent);
    swept := RawDict(ids, entries);
  }

  // ---------------------------------------------------------------- the node

  /** The reply `handle_client_join` builds as written: its type is the
      name JOIN_ACK, which server/protocol.py leaves commented out, so
      evaluating it raises NameError (`None` here) and no reply is built. */
  function JoinReplyAsWritten(isLeader: bool): (reply: Option<Message>)
  {
    if JOIN_ACK in DEFINED_NAMES then Some(JoinAck(isLeader)) else None
  }

  /** Whatever the node's role, the JOIN_ACK reply as written never gets built. */
  lemma JoinReplyAsWrittenRaises(isLeader: bool)
    ensures JoinReplyAsWritten(isLeader) == None
  {
  }

  class Server {
    const state: ServerState<set<ClientId>>
    /** The node's own address, `("", port)`. */
    const addr: Addr
    /** Every datagram this node has sent, oldest first. */
    var outbox: seq<Send>

    ghost predicate Valid()
      reads this, state
    {
      MembersRegistered(state.chatrooms, state.clients)
    }

    constructor (serverId: ServerId, port: int, now: int)
      ensures Valid() && fresh(state)
      ensures state.serverId == serverId && !state.isLeader && state.leaderAddr == None
      ensures state.clients == Empty() && state.chatrooms == Empty() && state.pendingAcks == Empty()
      ensures state.servers == Empty() && state.lastHeartbeat == now
      ensures addr == Addr("", port) && outbox == []
    {
      state := new ServerState(serverId, now);
      addr := Addr("", port);
      outbox := [];
    }

    /** `handle_client_join`: register the client's address, add it to the
        room (created on first use), and reply with the leader flag. */
    method HandleClientJoin(clientId: ClientId, room: Option<RoomName>, from: Addr)
      requires Valid()
      modifies this`outbox, state`clients, state`chatrooms
      ensures Valid()
      ensures state.clients == Put(old(state.clients), clientId, from)
      ensures state.chatrooms == WithMember(old(state.chatrooms), room.GetOr(DEFAULT_ROOM), clientId)
      ensures outbox == old(outbox) + [Send(from, JoinAck(state.isLeader))]
    {
      var r := room.GetOr(DEFAULT_ROOM);
      JoinKeepsMembersRegistered(state.chatrooms, state.clients, r, clientId, from);
      state.clients := Put(state.clients, clientId, from);
      state.chatrooms := WithMember(state.chatrooms, r, clientId);
      outbox := outbox + [Send(from, JoinAck(state.isLeader))];
    }

    /** `handle_chat_message`: record a pending entry waiting for every
        current member of the room (the sender included, none for an unknown
        room; an entry with the same id is replaced), then send the message to
        each member once. */
    method HandleChatMessage(msg: Message, now: int)
      requires Valid() && msg.ChatMsg?
      modifies this`outbox, state`pendingAcks
      ensures Valid()
      ensures state.pendingAcks == Put(old(state.pendingAcks), msg.msgId,
                PendingAck(msg.from, msg.room, Members(state.chatrooms, msg.room), now, msg))
      ensures |outbox| >= |old(outbox)| && outbox[..|old(outbox)|] == old(outbox)
      ensures FansOut(outbox[|old(outbox)|..], Members(state.chatrooms, msg.room), state.clients, msg)
    {
      var recipients := Members(state.chatrooms, msg.room);
      state.pendingAcks := Put(state.pendingAcks, msg.msgId, PendingAck(msg.from, msg.room, recipients, now, msg));
      var sent := SendToMembers(recipients, state.clients, msg);
      outbox := outbox + sent;
      assert outbox[|old(outbox)|..] == sent;
    }

    /** `handle_ack` */
    method HandleAck(msgId: MsgId, from: ClientId) returns (outcome: Outcome)
      requires Valid()
      modifies this`outbox, state`pendingAcks
      ensures Valid()
      ensures var r := AckEffect(old(state.pendingAcks), state.clients, msgId, from);
              state.pendingAcks == r.pending && outbox == old(outbox) + r.sent && outcome == r.outcome
    {
      outcome := Returned;
      if msgId !in state.pendingAcks.entries {
        return;
      }
      var entry := state.pendingAcks.entries[msgId];
      var left := entry.waitingFor - {from};
      state.pendingAcks := Put(state.pendingAcks, msgId, entry.(waitingFor := left));
      if left == {} {
        if entry.sender !in state.clients.entries {
          outcome := RaisedKeyError;
          return;
        }
        outbox := outbox + [Send(state.clients.entries[entry.sender], Delivered(msgId))];
        state.pendingAcks := Remove(state.pendingAcks, msgId);
      }
    }

    /** One iteration of the resend monitor's loop at time `now`. */
    method ResendTick(now: int) returns (outcome: Outcome)
      requires Valid()
      modifies this`outbox, state`pendingAcks
      ensures Valid()
      ensures state.pendingAcks.order == old(state.pendingAcks.order)
      ensures state.pendingAcks.entries.Keys == old(state.pendingAcks.entries.Keys)
      ensures outcome == Returned || outcome == RaisedKeyError
      ensures outcome == Returned <==> OverdueSendersKnown(old(state.pendingAcks), state.clients, now)
      ensures outcome == Returned ==>
                && state.pendingAcks == MapValues(old(state.pendingAcks), Rearm(now))
                && outbox == old(outbox) + ResendsDue(old(state.pendingAcks).order, old(state.pendingAcks), state.clients, now)
      ensures outcome == RaisedKeyError ==>
                && old(outbox) <= outbox
                && StoppedSomewhere(old(state.pendingAcks), state.clients, now,
                                    state.pendingAcks.entries, outbox[|old(outbox)|..])
    {
      var swept, sent;
      swept, sent, outcome := Sweep(state.pendingAcks, state.clients, now);
      state.pendingAcks := swept;
      outbox := outbox + sent;
      assert outbox[|old(outbox)|..] == sent;
    }

    /** `handle_leader_announce`: the node is leader exactly when the
        announced id is its own; the announcer's address becomes the leader
        address. */
    method HandleLeaderAnnounce(leaderId: ServerId, from: Addr)
      modifies state`isLeader, state`leaderAddr
      ensures state.isLeader == (leaderId == state.serverId)
      ensures state.leaderAddr == Some(from)
    {
      state.isLeader := leaderId == state.serverId;
      state.leaderAddr := Some(from);
    }

    /** `start_election`, delegated to the election module. */
    method StartElection()
      modifies this`outbox, state`isLeader, state`leaderAddr
      ensures outbox == old(outbox)
                + Broadcast(Values(state.servers), LeaderAnnounce(Election.LeaderChoice(state.servers.order, state.serverId)))
      ensures Election.Role(state.isLeader, state.leaderAddr)
           == Election.ElectionOutcome(state.servers, state.serverId, addr,
                                       Election.Role(old(state.isLeader), old(state.leaderAddr)))
    {
      var sent := Election.StartElection(state, addr);
      outbox := outbox + sent;
    }

    /** One iteration of the heartbeat send loop. */
    method HeartbeatTick()
      modifies this`outbox
      ensures state.isLeader ==> outbox == old(outbox) + Broadcast(Values(state.servers), Heartbeat(state.serverId))
      ensures !state.isLeader ==> outbox == old(outbox)
    {
      var sent := Heartbeat.SendTick(state);
      outbox := outbox + sent;
    }

    /** One iteration of the heartbeat monitor loop: a follower whose leader
        has been silent for more than the timeout starts an election.  The
        tick itself never touches `last_heartbeat`. */
    method MonitorTick(now: int) returns (elected: bool)
      modifies this`outbox, state`isLeader, state`leaderAddr
      ensures elected <==> !old(state.isLeader) && Heartbeat.LeaderSilent(now, state.lastHeartbeat)
      ensures !elected ==> outbox == old(outbox) && state.isLeader == old(state.isLeader)
                           && state.leaderAddr == old(state.leaderAddr)
      ensures elected ==>
                && outbox == old(outbox)
                   + Broadcast(Values(state.servers), LeaderAnnounce(Election.LeaderChoice(state.servers.order, state.serverId)))
                && Election.Role(state.isLeader, state.leaderAddr)
                   == Election.ElectionOutcome(state.servers, state.serverId, addr,
                                               Election.Role(old(state.isLeader), old(state.leaderAddr)))
    {
      elected := Heartbeat.MonitorTick(state, now);
      if elected {
        StartElection();
      }
    }

    /** `handle_message`: dispatch on the message type. */
    method HandleMessage(msg: Message, from: Addr, now: int) returns (outcome: Outcome)
      requires Valid()
      modifies this`outbox, state`clients, state`chatrooms, state`pendingAcks,
               state`lastHeartbeat, state`isLeader, state`leaderAddr
      ensures Valid()
      ensures msg.ClientJoin? ==>
                && state.clients == Put(old(state.clients), msg.clientId, from)
                && state.chatrooms == WithMember(old(state.chatrooms), msg.joinRoom.GetOr(DEFAULT_ROOM), msg.clientId)
                && outbox == old(outbox) + [Send(from, JoinAck(state.isLeader))]
      ensures msg.ChatMsg? ==>
                && state.pendingAcks == Put(old(state.pendingAcks), msg.msgId,
                     PendingAck(msg.from, msg.room, Members(state.chatrooms, msg.room), now, msg))
                && |outbox| >= |old(outbox)| && outbox[..|old(outbox)|] == old(outbox)
                && FansOut(outbox[|old(outbox)|..], Members(state.chatrooms, msg.room), state.clients, msg)
      ensures msg.Ack? ==>
                var r := AckEffect(old(state.pendingAcks), state.clients, msg.msgId, msg.from);
                state.pendingAcks == r.pending && outbox == old(outbox) + r.sent && outcome == r.outcome
      ensures msg.Heartbeat? ==> state.lastHeartbeat == now && outbox == old(outbox)
      ensures msg.LeaderAnnounce? ==>
                state.isLeader == (msg.leaderId == state.serverId) && state.leaderAddr == Some(from)
      ensures msg.ListChatrooms? ==> outbox == old(outbox) + [Send(from, ChatroomsList(state.chatrooms.order))]
      ensures !msg.Ack? ==> outcome == Returned
      ensures !msg.ClientJoin? ==> state.clients == old(state.clients) && state.chatrooms == old(state.chatrooms)
      ensures !(msg.ChatMsg? || msg.Ack?) ==> state.pendingAcks == old(state.pendingAcks)
      ensures !msg.Heartbeat? ==> state.lastHeartbeat == old(state.lastHeartbeat)
      ensures !msg.LeaderAnnounce? ==> state.isLeader == old(state.isLeader) && state.leaderAddr == old(state.leaderAddr)
      ensures msg.LeaderAnnounce? ==> outbox == old(outbox)
      ensures !(msg.ClientJoin? || msg.ChatMsg? || msg.Ack? || msg.Heartbeat? || msg.LeaderAnnounce? || msg.ListChatrooms?) ==>
                outbox == old(outbox) && unchanged(state)
    {
      outcome := Returned;
      match msg
      case ClientJoin(clientId, room) =>
        HandleClientJoin(clientId, room, from);
      case ChatMsg(_, _, _, _) =>
        HandleChatMessage(msg, now);
      case Ack(msgId, acker) =>
        outcome := HandleAck(msgId, acker);
      case Heartbeat(_) =>
        state.lastHeartbeat := now;
      case LeaderAnnounce(leaderId) =>
        HandleLeaderAnnounce(leaderId, from);
      case ListChatrooms =>
        outbox := outbox + [Send(from, ChatroomsList(state.chatrooms.order))];
      case _ =>
    }
  }
}
