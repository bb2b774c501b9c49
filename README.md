# Distributed chat system — a Dafny model of its coordination core

The system is a small cluster of UDP chat nodes plus a test client.

- The room-hosting node (`server/server.py`) keeps room membership. It relays
  each chat message to the members of its room and tracks which members still
  owe an ACK. When every member has ACKed, it confirms delivery to the sender.
  When a message stays unacknowledged for more than 5 seconds, it asks the
  sender to resend it.
- The directory node (`server.py`) registers the servers of the cluster. It
  assigns each new room to the least-loaded server and tells every server who
  owns which room. It also hosts the rooms assigned to itself.
- Both nodes share a mutable state record (`state.py`), a heartbeat monitor
  (`heartbeat.py`) and a leader choice (`election.py`). The leader choice takes
  the largest id the node knows, its own included, and announces it to every
  known server.
- The test client (`client/mock_client.py`) caches every message it sends
  until the server reports delivery, and replays a cached message on request.
- An XOR transform (`cipher.py`) obscures message text.

## How the model is built

- Each node's state is a Dafny class: `State.ServerState`, wrapped by
  `DeliveryServer.Server` and `DirectoryServer.Server`.
- Handlers are methods that update these fields in place. Their `modifies`
  clauses name the exact fields.
- A Python `dict` is a `Dicts.Dict`: a map plus the insertion order of its
  keys. Several behaviours depend on that order: the tie-break of `min`, the
  order of a room listing, and the order of the send loops.
- Every `send` appends a `Send(address, message)` to the node's `outbox`.
- `time.time()` becomes an integer parameter `now`.
- Message dictionaries become the `Protocol.Message` datatype, one constructor
  per type tag.
- An uncaught Python exception becomes an `Outcome`
  (`RaisedKeyError`, `RaisedValueError`, `RaisedAttributeError`,
  `RaisedNameError`). The state is
  kept as it was at the point of the raise.
- Loops over tables are value-level methods proved against specification
  functions. The class methods wrap them.

Modules, one per file: `Wrappers`, `Dicts`, `Protocol`, `State`, `Election`,
`Heartbeat`, `DeliveryServer`, `DirectoryServer`, `MockClient`, `Cipher`.

In `server/server.py`, nothing ever fills `servers`. The election of a
room-hosting node therefore always elects the node itself and announces the
result to no one. The model shows this; it is not corrected.

## Model

| member | source | states |
|---|---|---|
| State.ServerState.constructor | state.py:6-20 | the id is stored as given; the node is not leader and has no leader address; all six tables start empty; `last_heartbeat` is the construction time |
| Protocol.SendToAll | election.py:16-20 | a send loop over a list of addresses sends exactly one copy of the message to each address, in list order |
| Election.Max | election.py:12 | `max` returns an element of the list that is at least every element |
| Election.LeaderChoice | election.py:11-12 | the announced id is the node's own id or a known id; it is at least the node's own id and at least every known id |
| Election.LeaderChoiceDependsOnIdsOnly | election.py:11-12 | the choice depends only on the set of ids, so listing the node's own id among the known servers (as server.py:29 does) changes nothing |
| Election.ElectionOutcome | election.py:22-25 | the node becomes leader with its own address exactly when it holds the largest id; otherwise its role stays as it was (no self-demotion); a node with the largest id always ends as leader |
| Election.ElectionIdempotent | election.py:9-13 | a second election with the same servers leaves the role exactly as the first one left it |
| Election.AnnounceLeader | election.py:15-25 | one LEADER_ANNOUNCE with the id goes to each known server in dict order; the role changes only when the id is the node's own |
| Election.StartElection | election.py:9-13 | the announcements carry `LeaderChoice`, and the new role is `ElectionOutcome` of the old role |
| Heartbeat.SendTick | heartbeat.py:19-27 | a leader sends exactly one HEARTBEAT carrying its id to each known server; a follower sends nothing |
| Heartbeat.MonitorTick | heartbeat.py:29-35 | an election fires exactly when the node is not leader and strictly more than 6 time units have passed since the last heartbeat; the tick changes nothing |
| Heartbeat.SilencePersists | heartbeat.py:29-35 | once the leader is silent, every later tick fires again until a heartbeat moves `last_heartbeat` |
| Heartbeat.QuietAfterHeartbeat | heartbeat.py:32 | after a heartbeat at time t (or a fresh record created at t), the monitor stays quiet up to and including t + 6 |
| Heartbeat.LostHeartbeatsTolerated | heartbeat.py:7-35 | with heartbeats every 2 units and a timeout of 6, a follower stays quiet through up to two lost heartbeats in a row; with three or more lost, the monitor fires before the next heartbeat arrives |
| DeliveryServer.WithMember | server/server.py:78 | `setdefault(room, set()).add(cid)`: the room exists afterwards with its old members plus the client; no other room changes |
| DeliveryServer.JoinKeepsMembersRegistered | server/server.py:76-78 | a join keeps the invariant that every room member is a registered client |
| DeliveryServer.JoinIdempotent | server/server.py:72-78 | repeating a join leaves the room table unchanged |
| DeliveryServer.SendToMembers | server/server.py:106-107 | the relay loop sends the message to the address of each member, once per member, in some iteration order of the set |
| DeliveryServer.FanOutReachesEachMember | server/server.py:106-107 | the relay sends exactly as many copies as the room has members, all of the message itself, and every member's address receives one |
| DeliveryServer.AckEffect | server/server.py:109-127 | the tracker, sends and outcome of one `handle_ack`: no key is added, at most one datagram is sent, and the outcome is a normal return or KeyError; its full behaviour is stated by `AckShrinks` and `AckDelivers` |
| DeliveryServer.AckShrinks | server/server.py:109-117 | an ACK for an unknown id changes nothing and sends nothing; an ACK removes only the acking client from that entry's waiting set (harmless from a non-member); waiting sets never grow; other entries are untouched |
| DeliveryServer.AckDelivers | server/server.py:119-125 | exactly one DELIVERED with the id goes to the sender's address, and the entry is deleted, exactly when the waiting set empties and the sender is registered; an unregistered sender raises KeyError instead; otherwise nothing is sent, and an entry that sends nothing is kept |
| DeliveryServer.DeliveredStaysDead | server/server.py:113-125 | after delivery is confirmed, any later ACK for the same id is a no-op |
| DeliveryServer.AllAcksDeliverOnce | server/server.py:109-127 | once every awaited client has ACKed (in any order, with repeats and strangers), exactly one DELIVERED has gone to a registered sender and the entry is gone |
| DeliveryServer.AcksAfterDeliveryAreSilent | server/server.py:113-115 | any number of ACKs for a message without an entry change nothing and send nothing |
| DeliveryServer.ResendsDueExact | server/server.py:134-144 | a sweep sends one RESEND_REQUEST per overdue entry (strictly older than 5), to that entry's sender, and no request for any other entry |
| DeliveryServer.Sweep | server/server.py:133-146 | the keys and their order stay the same; each entry is either untouched or re-armed; the sweep returns normally exactly when every overdue sender is registered, and then every overdue timestamp becomes `now` and the requests are `ResendsDue`; otherwise it raises KeyError at the first overdue entry with an unknown sender, with exactly the entries before it re-armed and exactly their requests sent |
| DeliveryServer.JoinReplyAsWrittenRaises | server/server.py:80-83 | as written, the join reply names JOIN_ACK, which is unbound, so no reply is built (see Findings) |
| DeliveryServer.Server.constructor | server/server.py:19-24 | a fresh record at address `("", port)` with an empty outbox, satisfying the membership invariant |
| DeliveryServer.Server.HandleClientJoin | server/server.py:72-83 | registers the client's address; adds it to the given room, or to "default" when none is given, creating the room if needed; replies JOIN_ACK with the leader flag; keeps the membership invariant |
| DeliveryServer.Server.HandleChatMessage | server/server.py:89-107 | the entry for the id is set (replacing any old one), waiting for exactly the room's current members, sender included, and for no one in an unknown room; the message is relayed to each member once |
| DeliveryServer.Server.HandleAck | server/server.py:109-127 | the new tracker, sends and outcome are those of `AckEffect`, whose properties `AckShrinks` and `AckDelivers` state |
| DeliveryServer.Server.ResendTick | server/server.py:131-146 | one monitor iteration: the keys and their order are unchanged; on normal return every overdue entry is re-armed and its sender asked to resend; on KeyError the tracker and the new sends are those of a sweep stopped at the first overdue entry with an unknown sender |
| DeliveryServer.Server.HandleLeaderAnnounce | server/server.py:157-161 | the node is leader exactly when the announced id is its own; the announcer becomes the leader address |
| DeliveryServer.Server.StartElection | server/server.py:154-155 | delegates to the election: announcements carry `LeaderChoice` and the role becomes `ElectionOutcome` |
| DeliveryServer.Server.HeartbeatTick | heartbeat.py:19-27 | a leader appends one HEARTBEAT per known server to the outbox; a follower appends nothing |
| DeliveryServer.Server.MonitorTick | heartbeat.py:29-35 | an election runs exactly when a follower's leader has been silent for more than 6 units, and then announces `LeaderChoice` to every known server and sets the role to `ElectionOutcome`; otherwise nothing changes |
| DeliveryServer.Server.HandleMessage | server/server.py:45-68 | dispatch by type: join (registers, joins the room or "default", replies JOIN_ACK), chat (tracks exactly the room's members and relays to each once), ACK (`AckEffect`), HEARTBEAT (`last_heartbeat := now`), LEADER_ANNOUNCE and LIST_CHATROOMS (room names in creation order); each type touches only its own tables and every other type changes nothing |
| DirectoryServer.FirstMinIndex | server.py:126 | the position `min` settles on: its load is no larger than any other, and every earlier key has a strictly larger load |
| DirectoryServer.LeastLoaded | server.py:126 | no target exactly when `server_load` is empty (`min` raises ValueError); otherwise a server whose load is at most every load, the first such in insertion order |
| DirectoryServer.SumBump | server.py:128 | raising one server's load by one raises the total load by exactly one |
| DirectoryServer.Bumped | server.py:128 | the target's load is raised by exactly one, other loads and the key order are unchanged, and the total grows by one |
| DirectoryServer.SyncCanBreakLoadRegistered | server.py:106-108 | for any registered servers, a synced load table can name a server that has no address, so a sync does not keep `keys(server_load) ⊆ keys(servers)` |
| DirectoryServer.SelectBranch | server.py:47-86 | an `if`/`elif` chain on the type reaches a handler only for a name equal to the type, and stops with NameError only at an unbound name |
| DirectoryServer.DispatchAsWrittenRaises | server.py:50-54 | as written, SERVER_UP reaches its handler and every other type raises NameError at STATE_SYNC (see Findings; the same name breaks the SERVER_UP reply, see `HandleServerUpAsWritten`) |
| DirectoryServer.DispatchWhenBound | server.py:47-86 | with every name of the chain bound, each type reaches its own branch and any other type reaches none |
| DirectoryServer.DispatchFixed | server.py:47-86 | with STATE_SYNC bound as well, each of the eleven types reaches its own handler |
| DirectoryServer.CreateSends | server.py:131-143 | one ROOM_ASSIGNMENT_UPDATE per registered server in dict order, then the ROOM_ASSIGNMENT reply carrying the target's address, when it has one |
| DirectoryServer.CreateEffect | server.py:122-143 | the tables, sends and outcome of one `handle_create_chatroom`: ValueError exactly when there is no load entry, and then nothing is sent; otherwise at least one update per registered server is sent; its full behaviour is stated by `CreateAssigns`, `CreateCounts`, `CreateNotifies` and `CreateKeepsLoadRegistered` |
| DirectoryServer.CreateAssigns | server.py:122-127 | with no loads, a creation is ValueError and changes nothing (`min` of an empty dict); otherwise the room is owned by the server `LeastLoaded` picks, whose load is at most every load, every other room keeps its owner, and the room keys grow by exactly the room |
| DirectoryServer.CreateCounts | server.py:126-128 | after a creation with some load entry, the owner's load has grown by one, no other load changed, the key order is kept, and the total load has grown by one |
| DirectoryServer.CreateNotifies | server.py:131-143 | a creation sends a ROOM_ASSIGNMENT_UPDATE to every registered server in dict order; it returns normally exactly when the owner has an address, and then the ROOM_ASSIGNMENT reply with that address comes last; otherwise KeyError after the updates, with no reply |
| DirectoryServer.CreateKeepsLoadRegistered | server.py:122-143 | a creation keeps every loaded server registered, and while that holds, a creation with some load entry always returns normally |
| DirectoryServer.SelfRegistered | server.py:28-30 | a node registered alone with load zero is the only entry of both tables, and every loaded server is registered |
| DirectoryServer.Server.constructor | server.py:18-30 | the node registers itself: `servers` is just its own id at `("127.0.0.1", port)`; `server_load` is just its own id at 0 |
| DirectoryServer.Server.HandleServerUp | server.py:90-102 | a follower ignores it; the leader registers the sender's address, sets its load to 0 (resetting any previous load), and replies STATE_SYNC with its rooms and loads; `keys(server_load) ⊆ keys(servers)` is preserved |
| DirectoryServer.Server.HandleServerUpAsWritten | server.py:90-102 | as written: a follower ignores it; on the leader both table updates happen and then the reply raises NameError at STATE_SYNC, so nothing is sent (see Findings) |
| DirectoryServer.Server.HandleStateSync | server.py:106-108 | the rooms and loads are replaced wholesale and `servers` is not touched, so the load invariant then holds exactly when the synced loads name registered servers |
| DirectoryServer.Server.HandleClientJoin | server.py:113-120 | registers the client and replies with exactly the room names, in creation order |
| DirectoryServer.Server.HandleListChatrooms | server.py:59-63 | replies with exactly the room names, in creation order |
| DirectoryServer.Server.HandleHeartbeat | server.py:80-81 | `last_heartbeat := now`, so the monitor stays quiet for the next 6 units |
| DirectoryServer.Server.HandleLeaderAnnounce | server.py:83-85 | the node is leader exactly when the announced id is its own; the announcer becomes the leader address |
| DirectoryServer.Server.HandleCreateChatroom | server.py:122-143 | the new room table, load table, sends and outcome are those of `CreateEffect`, whose properties `CreateAssigns`, `CreateCounts`, `CreateNotifies` and `CreateKeepsLoadRegistered` state; `servers` is not touched |
| DirectoryServer.Server.HandleJoinChatroom | server.py:147-155 | replies with the owner's address; an unknown room, or an owner without an address, raises KeyError and sends nothing |
| DirectoryServer.Server.HandleRoomUpdate | server.py:157-163 | records the owner; only when the owner is this node does the room join `local_rooms`, with no members if new and with its members kept if already hosted |
| DirectoryServer.Server.HandleChatMessage | server.py:169-179 | a message for a room this node does not host is dropped; otherwise it goes to every registered client, in registration order, the sender and non-members included |
| DirectoryServer.Server.HeartbeatTick | heartbeat.py:19-27 | a leader appends one HEARTBEAT per known server; a follower appends nothing |
| DirectoryServer.Server.MonitorTickAsWritten | heartbeat.py:29-35 | as written: a silent leader makes a follower raise AttributeError, because this class has no `start_election` (see Findings) |
| DirectoryServer.Server.MonitorTick | heartbeat.py:29-35 | corrected: a follower whose leader is silent runs the election (`LeaderChoice` announced, role becomes `ElectionOutcome`); otherwise nothing changes |
| DirectoryServer.Server.HandleClientRequest | server.py:56-75 | CLIENT_JOIN, LIST_CHATROOMS, JOIN_CHATROOM and CHAT_MSG each have the effect of their handler above, and no table other than the client table (for a join) changes |
| DirectoryServer.Server.HandleServerMessage | server.py:50-86 | SERVER_UP, STATE_SYNC, ROOM_ASSIGNMENT_UPDATE, HEARTBEAT and LEADER_ANNOUNCE each have the effect of their handler above (`ServerMessageEffect`), touch only their own tables, and keep the load invariant except for a sync |
| DirectoryServer.Server.HandleMessage | server.py:47-86 | dispatch with every constant bound: client requests have `ClientRequestEffect`, CREATE_CHATROOM has `CreateEffect` and leaves the other tables alone, server messages have `ServerMessageEffect` and return normally; ACK and the types without a branch change nothing |
| MockClient.ResendIsIdentical | client/mock_client.py:65-69 | a resend request for a cached id replays exactly the cached message, with the same id, sender, room and body |
| MockClient.NoResendAfterDelivered | client/mock_client.py:61-69 | after DELIVERED, a resend request for the same id gets no reply |
| MockClient.CacheAfter | client/mock_client.py:61-63 | DELIVERED removes the id from the cache, and an unknown id is a no-op; nothing else touches the cache or changes a cached message |
| MockClient.Replies | client/mock_client.py:48-69 | CHAT_MSG gets exactly one ACK with the same id and the client's own id; RESEND_REQUEST gets the cached message or nothing; everything else gets nothing; all replies go to the server address |
| MockClient.Client.constructor | client/mock_client.py:12-17 | an empty cache and no sends |
| MockClient.Client.Join | client/mock_client.py:22-27 | sends one CLIENT_JOIN with the client's id and the room, or "default" when none is given, to the server |
| MockClient.Client.SendMessage | client/mock_client.py:29-40 | caches exactly the CHAT_MSG {id, own id, room, body} under its id and sends it once; every cached message stays one of the client's own |
| MockClient.Client.Handle | client/mock_client.py:48-69 | the cache and the replies are `CacheAfter` and `Replies`; every cached message stays one of the client's own |
| Cipher.XorSelfInverse | cipher.py:12 | XOR with the same value twice gives back the original |
| Cipher.XorAsciiIsScalar | cipher.py:12 | XOR with a code below 128 keeps the code point inside its aligned block of 128, so a valid character stays a valid character |
| Cipher.XorChar | cipher.py:12 | `chr(ord(c) ^ ord(k))` for an ASCII `k` stays in the same block of 128 code points |
| Cipher.XorCharInvolution | cipher.py:12 | XORing a character twice with the same key character gives it back |
| Cipher.Transform | cipher.py:7-13 | the loop yields character i XORed with key character i mod the key length; the output has the input's length; empty text gives empty output; non-empty text with an empty key raises ZeroDivisionError (`None`) |
| Cipher.TransformTwice | cipher.py:7-13 | the transform keeps the length, and applying it twice with the same key gives back the text |
| Cipher.Encrypt | cipher.py:15-18 | `encrypt`: the codec applied to `XorStream(text, KEY)`; with a codec that round-trips, the token decodes to a text that the transform turns back into the original |
| Cipher.Decrypt | cipher.py:20-23 | `decrypt`: the codec's decoding, then the transform with `KEY`; `None` (the raised error) exactly when the codec rejects the token; otherwise the result has the decoded text's length and transforms back into it |
| Cipher.DecryptEncrypt | cipher.py:15-23 | `decrypt(encrypt(t)) == t` for every text, given a codec that round-trips |

## Left out

- Sockets, JSON encoding and decoding, the `recvfrom` receive loops, threads, `time.sleep`, `print`, the `argparse` and `__main__` start-up blocks, and `BUFFER_SIZE`. These are I/O and scheduling. Each handler and each loop iteration is modelled as one atomic step.
- Interleavings of a handler with the monitor threads that share the same tables are not modelled.
- Wall-clock time is an integer `now` passed in, not a float.
- Messages reach a handler already decoded into typed constructors. A datagram with a missing field (a KeyError on `msg[...]`) or a malformed body is not modelled. `Unrecognised` stands for any other type tag.
- JSON turns the integer keys of `server_load` into strings on the STATE_SYNC wire. The model passes both tables through unchanged.
- A Python `set` has no defined iteration order. The relay is stated for some enumeration of the members (`FansOut`), not a particular one.
- `server.py`'s `handle_ack` is `pass`. `HandleMessage` accepts ACK there and does nothing.
- ELECTION and SERVER_SYNC are defined in `server/protocol.py` but never sent or handled by any node, so they have no behaviour here.
- There is no ring-forwarding election, no follower STATE_SYNC after an election, no existing-room check on create, and no election-in-progress guard in the monitor. The code has none of these, and the model follows the code.
- `client.py` is not part of this model: it is broadcast discovery built on undefined names. The top-level interactive `mock_client.py` is not part of this model either: it is a console front end. The `listen` loop of `client/mock_client.py` is only the receive loop around `handle`.
- Cipher.Transform: requires every key character to be ASCII, whereas Python accepts any key. An ASCII key keeps every result a valid Dafny `char`; a non-ASCII key can produce surrogate code points, which Dafny's `char` cannot hold. The default key `STUTTGART` is ASCII.
- Cipher.XorChar: same ASCII-key restriction as `Transform`.
- Cipher.DecryptEncrypt: base64 and UTF-8 are library code. They enter as a `Codec` parameter whose round trip is a precondition; the codecs themselves are not modelled.
- DeliveryServer.Server.HandleClientJoin: models the evidently intended JOIN_ACK reply. As written, the reply raises NameError after the state updates (see Findings).
- DeliveryServer.Server.HandleMessage: passes on the evidently intended JOIN_ACK reply to CLIENT_JOIN, returning normally. As written, every CLIENT_JOIN raises NameError at server/server.py:81 after the state updates, and the exception leaves the receive loop (see Findings).
- DirectoryServer.Server.HandleServerUp: models the evidently intended STATE_SYNC reply. As written, a leader raises NameError after registering the server and setting its load, and sends no reply (see Findings, `HandleServerUpAsWritten`).
- DirectoryServer.Server.HandleMessage: models the dispatch with STATE_SYNC bound. As written, every type other than SERVER_UP raises NameError (see Findings).
- DeliveryServer.Server.HandleChatMessage: requires a CHAT_MSG. The dispatcher only calls it for that type.

## Findings

| source | as written | input that shows it | evidently intended | confidence | as-written member | corrected member |
|---|---|---|---|---|---|---|
| server/server.py:80-83 | the join reply uses the name JOIN_ACK, which `server/protocol.py` leaves commented out (line 13), so the handler raises NameError after registering the client and before any reply | any CLIENT_JOIN | reply with a JOIN_ACK carrying the leader flag | high; not executed | DeliveryServer.JoinReplyAsWrittenRaises | DeliveryServer.Server.HandleClientJoin |
| server.py:53 | the second test of the dispatcher compares with STATE_SYNC, which the protocol module never binds, so every type other than SERVER_UP raises NameError before reaching its handler | a CLIENT_JOIN datagram | each type reaches its own handler | medium (assumes `server/protocol.py` is the module imported as `protocol`); not executed | DirectoryServer.DispatchAsWrittenRaises | DirectoryServer.DispatchFixed |
| server.py:99 | the SERVER_UP reply names STATE_SYNC, which is unbound for the same reason, so the leader raises NameError after registering the new server and setting its load to 0, and the new server never gets the state | a SERVER_UP datagram reaching the leader | reply with the room table and the loads | medium (same assumption as the row above); not executed | DirectoryServer.Server.HandleServerUpAsWritten | DirectoryServer.Server.HandleServerUp |
| heartbeat.py:34 | the monitor calls `server.start_election()`, which the `Server` class of `server.py` does not define, so a follower's monitor thread raises AttributeError | a `server.py` follower whose last heartbeat is more than 6 seconds old | run the election of the node's `ElectionManager` | high; not executed | DirectoryServer.Server.MonitorTickAsWritten | DirectoryServer.Server.MonitorTick |
