/** Leader choice (election.py): the node takes the largest id it knows,
    its own included, and announces it to every known server.  There is no
    ring: the announcement goes straight to every entry of `servers`. */
module Election {
  import opened Wrappers
  import opened Dicts
  import opened Protocol
  import opened State

  /** Python's `max` over a non-empty list of ids. */
  function Max(ids: seq<ServerId>): (m: ServerId)
    requires |ids| > 0
    ensures m in ids
    ensures forall i :: i in ids ==> i <= m
  {
    if |ids| == 1 then ids[0]
    else
      var rest := Max(ids[1..]);
      assert forall i :: i in ids ==> i == ids[0] || i in ids[1..];
      if ids[0] >= rest then ids[0] else rest
  }

  /** The id `start_election` announces: the maximum of the known server ids
      together with the node's own id. */
  function LeaderChoice(known: seq<ServerId>, selfId: ServerId): (leader: ServerId)
    ensures leader == selfId || leader in known
    ensures selfId <= leader
    ensures forall i :: i in known ==> i <= leader
  {
    var all := known + [selfId];
    assert selfId in all by { assert all[|known|] == selfId; }
    assert forall i :: i in known ==> i in all;
    Max(all)
  }

  /** The choice depends only on which ids are known, not on their order or
      repetition, and listing the node's own id among them changes nothing. */
  lemma LeaderChoiceDependsOnIdsOnly(a: seq<ServerId>, b: seq<ServerId>, selfId: ServerId)
    requires forall i :: i in a + [selfId] <==> i in b + [selfId]
    ensures LeaderChoice(a, selfId) == LeaderChoice(b, selfId)
  {
    var x, y := LeaderChoice(a, selfId), LeaderChoice(b, selfId);
    assert x in b + [selfId] && y in a + [selfId];
  }

  /** The part of the record an election may change. */
  datatype Role = Role(isLeader: bool, leaderAddr: Option<Addr>)

  /** The role after `start_election`: the node becomes leader, with its own
      address as the leader address, exactly when it holds the largest known id;
      otherwise its role is left as it was (it never demotes itself). */
  function ElectionOutcome(servers: Dict<ServerId, Addr>, selfId: ServerId, selfAddr: Addr, role: Role): (r: Role)
    ensures LeaderChoice(servers.order, selfId) == selfId ==> r == Role(true, Some(selfAddr))
    ensures LeaderChoice(servers.order, selfId) != selfId ==> r == role
    ensures (forall i :: i in servers.entries ==> i <= selfId) ==> r.isLeader
  {
    if LeaderChoice(servers.order, selfId) == selfId then Role(true, Some(selfAddr)) else role
  }

  /** Running the election again with the same known servers elects the same
      id and leaves the role as the first run left it. */
  lemma ElectionIdempotent(servers: Dict<ServerId, Addr>, selfId: ServerId, selfAddr: Addr, role: Role)
    ensures var once := ElectionOutcome(servers, selfId, selfAddr, role);
            ElectionOutcome(servers, selfId, selfAddr, once) == once
  {
  }

  /** `announce_leader`: one LEADER_ANNOUNCE per known server, in dict order,
      then the role update of the elected node. */
  method AnnounceLeader<R>(st: ServerState<R>, selfAddr: Addr, leaderId: ServerId) returns (sent: seq<Send>)
    modifies st`isLeader, st`leaderAddr
    ensures sent == Broadcast(Values(st.servers), LeaderAnnounce(leaderId))
    ensures leaderId == st.serverId ==> st.isLeader && st.leaderAddr == Some(selfAddr)
    ensures leaderId != st.serverId ==> st.isLeader == old(st.isLeader) && st.leaderAddr == old(st.leaderAddr)
  {
    sent := SendToAll(Values(st.servers), LeaderAnnounce(leaderId));
    if leaderId == st.serverId {
      st.isLeader := true;
      st.leaderAddr := Some(selfAddr);
    }
  }

  /** `start_election`: choose the leader and announce it. */
  method StartElection<R>(st: ServerState<R>, selfAddr: Addr) returns (sent: seq<Send>)
    modifies st`isLeader, st`leaderAddr
    ensures sent == Broadcast(Values(st.servers), LeaderAnnounce(LeaderChoice(st.servers.order, st.serverId)))
    ensures Role(st.isLeader, st.leaderAddr)
         == ElectionOutcome(st.servers, st.serverId, selfAddr, Role(old(st.isLeader), old(st.leaderAddr)))
  {
    var allIds := st.servers.order + [st.serverId];
    var newLeader := Max(allIds);
    sent := AnnounceLeader(st, selfAddr, newLeader);
  }
}
