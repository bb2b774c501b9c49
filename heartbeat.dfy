/** One iteration of each heartbeat loop (heartbeat.py): who is sent a
    heartbeat, and when a follower decides that its leader has gone silent. */
module Heartbeat {
  import opened Dicts
  import opened Protocol
  import opened State

  /** Seconds between two iterations of the send loop. */
  const HEARTBEAT_INTERVAL := 2
  /** Seconds of leader silence after which a follower starts an election. */
  const HEARTBEAT_TIMEOUT := 6

  /** The monitor's trigger: strictly more than the timeout has elapsed. */
  predicate LeaderSilent(now: int, lastHeartbeat: int)
  {
    now - lastHeartbeat > HEARTBEAT_TIMEOUT
  }

  /** One iteration of `_send_loop`: a leader sends a HEARTBEAT carrying its
      own id to every known server, in dict order; a follower sends nothing. */
  method SendTick<R>(st: ServerState<R>) returns (sent: seq<Send>)
    ensures st.isLeader ==> sent == Broadcast(Values(st.servers), Heartbeat(st.serverId))
    ensures !st.isLeader ==> sent == []
  {
    sent := [];
    if st.isLeader {
      sent := SendToAll(Values(st.servers), Heartbeat(st.serverId));
    }
  }

  /** One iteration of `_monitor_loop`: whether it calls `start_election`.
      It reads the record and changes nothing, `last_heartbeat` included. */
  method MonitorTick<R>(st: ServerState<R>, now: int) returns (elect: bool)
    ensures elect <==> !st.isLeader && LeaderSilent(now, st.lastHeartbeat)
  {
    elect := false;
    if !st.isLeader {
      if LeaderSilent(now, st.lastHeartbeat) {
        elect := true;
      }
    }
  }

  /** Once silent, the leader stays silent at every later tick until a
      HEARTBEAT moves `last_heartbeat`. */
  lemma SilencePersists(lastHeartbeat: int, now: int, later: int)
    requires LeaderSilent(now, lastHeartbeat) && now <= later
    ensures LeaderSilent(later, lastHeartbeat)
  {
  }

  /** A heartbeat received at time `t` keeps the monitor quiet up to and
      including `t + HEARTBEAT_TIMEOUT`; this also covers a fresh record,
      whose `last_heartbeat` is its construction time. */
  lemma QuietAfterHeartbeat(t: int, now: int)
    requires now <= t + HEARTBEAT_TIMEOUT
    ensures !LeaderSilent(now, t)
  {
  }

  /** The send loop's period against the monitor's timeout.  A follower that
      heard the leader at `t` and then misses `lost` heartbeats in a row next
      hears it at `t + (lost + 1) * HEARTBEAT_INTERVAL`.  Up to two lost
      heartbeats, the monitor stays quiet until then; from three on, the
      monitor's check one second before that arrival already fires. */
  lemma LostHeartbeatsTolerated(t: int, lost: nat)
    ensures lost <= 2 ==>
              forall now :: now <= t + (lost + 1) * HEARTBEAT_INTERVAL ==> !LeaderSilent(now, t)
    ensures lost > 2 ==> LeaderSilent(t + (lost + 1) * HEARTBEAT_INTERVAL - 1, t)
  {
  }
}
