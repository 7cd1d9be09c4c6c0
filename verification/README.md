# Verified model of the lanecove tunnel

This project models the session engine of the lanecove UDP tunnel and a part of its bundled test framework in
Dafny, and proves what they promise. `dafny verify dfyconfig.toml` checks the whole project.

The engine is modelled twice over. `Engine` and `Sessions` hold it in the program's own form: the tables as
arrays and objects, the searches and passes as loops, the packet buffers as byte arrays. Each method is proved to
do to the tables exactly what a function of `Tables` or `Sessions` says. The theorems are about those functions
and about all runs built from them.

| module | part of the program |
|---|---|
| `Options`, `Words`, `Replay` | optional results; machine words as binary digits; the sliding replay window, in place and against the set of accepted numbers |
| `Wire` | datagram layout, big-endian numbers, `encrypt_packet` and `decrypt_packet` on buffers |
| `Routing` | prefixes, `parse_cidr`, longest-prefix routing, the source check |
| `Sessions` | one session slot: install, send, receive |
| `Tables`, `Engine` | the tables under `table_lock`: each critical section as a function, and in place |
| `Choices` | which slot, route and outcome the lookups choose, said of the sessions and the bytes of a packet |
| `Invariants`, `Passes`, `Runs` | what every critical section and every run keeps; pending handshakes |
| `Inbound`, `Outbound`, `Keepalives` | exactly when handshakes install sessions, the life of a pending handshake, when keepalives go out |
| `SlotHistory`, `Cooldown`, `NonInterference` | keys of a slot over time, spacing of installs, packets under a previous key |
| `Network` | any number of peers with their complete tables over a lossy network |
| `Scenes`, `Corners`, `Channel` | example runs that show why results have their conditions: of the network, and of one peer |
| `Relay` | the way of a packet through a relay |
| `Locking`, `Reduction`, `Tally` | threads, `table_lock` and `hot_lock`, step by step; interleavings of packets against runs of whole critical sections |
| `Handshake` | packets, both sides' computations, agreement on the session key |
| `ConfigLoader`, `Startup` | the configuration state machine and the table limits; from the file to the first state |
| `Ring`, `PointerMap`, `PointerCache` | the circular list and the allocation tracker of the test framework |

Reading guide to the main results:

- The replay window: `Replay.WindowIsExact` (over every run, accepted exactly if never accepted and less than 2048
  behind), resting on `Replay.ShiftLoopIsShift` and `Replay.CheckReplay`.
- Delivery over a network that loses, reorders, duplicates and reflects: `Network.DeliveryIsExact` and
  `Network.RepeatIsExact` (if-and-only-ifs over complete tables), with the network runs of `Corners` that show each
  condition to be needed. Origin of packets, through any number of relays: `Network.HandedOnWasRead`.
- Interleavings of threads: `Locking.SendingIsSound` (numbers in order and each once, no datagram mixing epochs, no
  deadlock) and `Reduction.InterleavingsAreRuns` (packets handled at the same time fare as in some order, one after the
  other), with `Tally.EqualAtRest` for the send counters. Results about the tables of runs at whatever times carry over;
  `Cooldown.InstallsAreApart` depends on times and says how far a packet's may lag.
- Tables in every run: `Runs.RunKeepsGood`, `Runs.TableNeverFull`, `Runs.PendingTableNeverFull`,
  `Runs.RunNoStuckRekeying`.
- Handshakes in every run: `Inbound.InitiationIsExact` (an if-and-only-if) and `Outbound.OutboundCompletes` (from the
  pass that starts a handshake to the session that its response installs); keepalives: `Keepalives.KeepaliveIsExact`.
- Keys in every run: `SlotHistory.OnlyLatestTwoKeys`; spacing: `Cooldown.InstallsAreApart`, with a bound that
  `Cooldown.LagBreaksSpacing` shows to be exact.
- Non-interference: `NonInterference.PreviousKeyNonInterference`, an if-and-only-if whose condition is on the given run
  alone, with `Channel.LastSeenIsTheChannel` as the run that shows why it is there.
- Handshake: `Handshake.BothSidesAgree` and its converse `Handshake.SameKeyMeansAgreement`; what is refused:
  `Handshake.ResponderAccepts`, `Handshake.InitiatorAccepts`, `Handshake.OtherSecretIsRefused`.
- Routing and relaying: `Routing.RouteIsLongestMatch`, `Routing.SourceCheckMatchesReturnRoute`,
  `Choices.TunRouteIsExact`, `Choices.DispatchIsExact`, `Relay.HubTransparency`, `Relay.HandedOnPacketsAreAllowed`.
- Configuration: `ConfigLoader.DocumentLoads`. Test framework: `PointerCache.Cache.CachePtr`, `Ring.Drain`.

## How the outside world enters

- Each critical section under `table_lock` is one atomic step that reads the clock once. Runs are taken at any times;
  where times matter, the clock does not go back between sections under the write lock, and a packet's time, which is
  read before it gets the read lock, lags by a bounded amount (`Cooldown.Lagging`). `Locking` treats the sections step by step instead and leaves the clock out. `Reduction` takes the sections
  under `hot_lock` as steps.
- Randomness, name resolution, `sendto`, key files and text parsing enter as arguments: the outcome of the call.
- AES-GCM, X25519, SHA-256 and HMAC are functions with stated assumptions: opening undoes sealing, lengths are as in
  GCM, Diffie-Hellman is symmetric (`Wire.Aead`, `Handshake.Crypto`; both types have a witness, so the assumptions can
  be met). Unforgeability and fresh keys and nonces are conditions on runs (`Network.Possible`): what opens under a key
  was sealed under it by some peer, the receiver included, since both ends of a session seal under one key. Collision
  freedom is not assumed: the converse of agreement names the collision.
- A datagram is classified as handshake or data before the model sees it.

## Where code and documentation differ

The model follows the code.

- The comment above `check_replay` speaks of 1024 bits; the window has 2048 (`src/common.h:56-59`).
- The README's diagram starts numbering at 1; the first number sent is 0 (`src/peer.c:528`).
- The comment at `src/peer.c:826-828` describes a tie-break between crossing handshakes. The response loop before it
  takes the first pending handshake to the packet's source and ends the branch, so the tie-break never finds one
  (`Tables.TieBreakIsDead`).
- Packets under a previous key bypass the replay window, and the README says that this keeps them from disturbing the
  new session (`README.md:236`). They do stamp `last_seen`, as every packet does (`src/peer.c:915`), and so can keep a
  session from expiring. Non-interference is therefore stated with the exact condition under which it holds. And having
  no window of their own, they can be handed on again and again (`Corners.RepeatsUnderPrevious`).
- The README promises that replays are rejected (`README.md:49`). They are, except under a previous key during its grace
  time: `Network.RepeatIsExact` says exactly when a datagram is handed on again. A window tells numbers apart, not directions: a session's own
  datagram, sent back to it, passes and uses up the number of the peer's (`Corners.OwnDatagramTakesTheNumber`).
- Active sessions may share an address, and the lowest slot takes all packets from it
  (`Corners.LowerSlotTakesThePacket`).

## Model

| member | source | states |
|---|---|---|
| `Replay.CheckReplay` | src/common.h:60-87 | shifting, testing and setting the words in place agrees with 2048 flags around the highest number, for every number and every window |
| `Replay.MakeRoom` | src/common.h:62-77 | the descending word and bit loop, or the clearing on jumps of 2048 or more, is an exact shift of all flags |
| `Replay.ShiftLoopIsShift` | src/common.h:67-75 | storing the combined low and high source words is a shift by any amount, bit shift 0 included |
| `Replay.CheckDecides` | src/common.h:60-87 | one call accepts exactly the acceptable numbers and records its verdict |
| `Replay.WindowIsExact` | src/common.h:56-87 | over every run from a fresh window, a number is accepted exactly if it was never accepted before and is less than 2048 behind every accepted one |
| `Replay.NeverAcceptedTwice` | src/common.h:56-87 | no number is accepted at two positions of any run |
| `Wire.FrameRoundTrip` | src/peer.c:528-532 | a receiver reads back the number and the payload that were framed |
| `Wire.DecryptRoundTrip` | src/common.c:28-79 | decrypting under the sending key returns the plaintext |
| `Wire.EncryptPacket` | src/common.c:28-53 | the buffer holds nonce, ciphertext and tag, 28 bytes more than the plaintext; nothing on a failed nonce |
| `Wire.DecryptPacket` | src/common.c:55-79 | succeeds exactly if the tag checks, with the plaintext in the buffer |
| `Routing.ParseCidr` | src/peer.c:183-201 | accepted exactly with an address and a length from 0 to 32; the result has that length and covers exactly the addresses that agree with the given one in that many leading digits |
| `Routing.IpAtValue` | src/peer.c:766 | the address read from a packet is its four bytes as a number in network order |
| `Routing.LongerIsInside` | src/peer.c:183-201 | of two prefixes covering one address the longer lies inside the other |
| `Routing.RouteIsLongestMatch` | src/peer.c:408-422 | nothing is found exactly if no active session covers the address; otherwise exactly the lowest slot with a longest covering prefix |
| `Routing.RoutedBlockIsInnermost` | src/peer.c:408-422 | the chosen block lies inside every other covering block |
| `Routing.SourceCheckMatchesReturnRoute` | src/peer.c:408-431 | with disjoint prefixes, a source is allowed for a session with prefixes exactly if return traffic is routed to it |
| `Sessions.PeerSession.Init` | src/peer.c:434-473 | the whole new session: key moved to previous only if the slot was active, counters and window reset, routes of the configuration |
| `Sessions.PeerSession.ForwardToPeer` | src/peer.c:523-548 | the datagram in the wire buffer seals header, current number and the payload as it was, even when the payload lies in the plain buffer being rewritten; the number is used up also on failure |
| `Sessions.PeerSession.OpenPacket` | src/peer.c:914-924 | current key first, previous only while good; what opening does to the previous key |
| `Sessions.PeerSession.Receive` | src/peer.c:914-936 | new session and verdict of a data packet, and the payload left in the plain buffer |
| `Sessions.CurrentKeyDelivery` | src/peer.c:914-936 | a datagram sealed under the current key passes exactly if its number is new to the window, with the payload that was sent |
| `Sessions.DatagramLayout` | src/peer.c:528-533 | 12 bytes of nonce, then what seals magic, number in network order and payload; 44 bytes more than the payload |
| `Tables.TieBreakIsDead` | src/peer.c:799-850 | a handshake packet that is not the response to a pending handshake finds nothing in the tie-break, whatever the keys, and is inbound |
| `Engine.Peer.FindSessionByAddr` | src/peer.c:377-384 | the lowest active slot with the address, or none |
| `Engine.Peer.FindSessionByPub` | src/peer.c:386-391 | the lowest active slot with the key, or none |
| `Engine.Peer.FindPeerConfig` | src/peer.c:365-370 | the first configuration with the key, or none |
| `Engine.Peer.AllocSession` | src/peer.c:395-405 | does to the tables what `Alloc` says |
| `Choices.AllocIsExact` | src/peer.c:395-405 | the lowest active slot with the key; else the lowest active slot with the address; else the lowest inactive slot in use; else the next slot, or none if there is none |
| `Engine.Peer.RouteLookup` | src/peer.c:408-422 | the nested loops find the route the specification names |
| `Engine.CheckAllowedSrc` | src/peer.c:426-431 | allowed exactly without prefixes or with a covering one |
| `Engine.Peer.InitiateOutboundHandshake` | src/peer.c:556-586 | attempt time always set; a pending entry exactly if a slot was free and the packet was sent |
| `Engine.Peer.ConnectPeer` | src/peer.c:632-645 | effect of the connect loop's body on all tables |
| `Outbound.DueIsExact` | src/peer.c:634-638 | due if and only if it has an endpoint, no recent attempt, and no session with its key or one past 4/5 of its time and not rekeying |
| `Outbound.AttemptIsRecorded` | src/peer.c:556-586 | the attempt time, and the entry with time, address and secrets, exactly if due, sent and an entry was free |
| `Outbound.PassConnects` | src/peer.c:632-645 | a pass starts a handshake for every configuration with endpoint, without session and recent attempt, and it is pending after the pass |
| `Engine.Peer.TimeOutPending` | src/peer.c:646-660 | does to the tables what `TimeOut` says |
| `Outbound.PassEntry` | src/peer.c:646-660 | a pass drops a pending handshake if and only if it is `handshake_timeout` old, and changes nothing else about it |
| `Outbound.EntryStays` | src/peer.c:646-660 | in every run a pending handshake stays, until a handshake packet from its address or a pass after the time-out |
| `Engine.Peer.ExpireSessions` | src/peer.c:661-676 | effect of the expiry loop on all tables |
| `Engine.Peer.SendKeepalives` | src/peer.c:677-689 | effect of the keepalive loop on all tables |
| `Engine.Peer.HousekeepingPass` | src/peer.c:627-691 | a pass is its four loops in order |
| `Engine.Peer.Answer` | src/peer.c:806-820 | a response installs a session, or on failure clears `rekeying` |
| `Engine.Peer.InboundHandshake` | src/peer.c:852-889 | an initiation installs a session exactly past both cooldowns, with a reply sent and a configured key |
| `Engine.Peer.HandshakePacket` | src/peer.c:796-893 | effect of the handshake branch on all tables |
| `Engine.Peer.DataPacket` | src/peer.c:895-987 | new tables, whether the packet is dropped, written to the interface or relayed, and the datagram of a relayed packet in the reused buffers |
| `Engine.Peer.TunPacket` | src/peer.c:761-781 | new tables and the datagram for the routed session, or none |
| `Choices.TunRouteIsExact` | src/peer.c:765-774 | sent to a slot if and only if it is IPv4 and the slot has the best route for the address in bytes 16 to 19; nowhere if and only if not IPv4 or nobody covers it |
| `Choices.DispatchIsExact` | src/peer.c:947-985 | which packets that passed are dropped, relayed to which slot, and written to the interface, by the addresses in bytes 12 to 15 and 16 to 19 |
| `Invariants.AllocNeverFails` | src/peer.c:395-405 | with at most 64 configurations, a slot is found for every configured key (pigeonhole) |
| `Invariants.HandshakeKeepsGood` | src/peer.c:796-893 | a handshake packet keeps the table invariant |
| `Passes.PassKeepsGood` | src/peer.c:632-690 | a housekeeping pass keeps the table invariant |
| `Passes.NoStuckRekeying` | src/peer.c:632-660 | after a pass a rekeying session waits for a handshake to its own key younger than the time-out |
| `Passes.PassKeepsAtMostOne` | src/peer.c:556-586 | with time-out at most the reconnect interval, a pass leaves at most one pending handshake per configuration |
| `Passes.PendingSearchNeverFails` | src/peer.c:562-569 | with at most 32 endpoints every initiation of a pass finds a free pending slot |
| `Runs.RunKeepsGood` | src/peer.c:632-690 | in every run: active slots below `session_slots`, distinct configured keys, routes of a configuration, a pending handshake behind every rekeying session |
| `Runs.TableNeverFull` | src/peer.c:812-816 | in every run both calls of `alloc_session` find a slot |
| `Runs.RunKeepsAtMostOne` | src/peer.c:632-660 | in every run at most one pending handshake per configuration |
| `Runs.PendingTableNeverFull` | src/peer.c:562-569 | in every run, with at most 32 endpoints, the pending search never fails |
| `Runs.RunNoStuckRekeying` | src/peer.c:632-660 | after every pass of every run, no session is stuck rekeying |
| `SlotHistory.HandshakeSlot` | src/peer.c:796-893 | a handshake packet installs into one slot or none and otherwise at most clears `rekeying` |
| `SlotHistory.PassSlot` | src/peer.c:632-690 | what a pass may change in a session, and that it deactivates only after the expiry time |
| `SlotHistory.OnlyLatestTwoKeys` | src/peer.c:449-456 | in every run a slot opens data under its latest key, or under the one before it exactly if it stayed active, nothing has authenticated under the latest, and the grace time has not passed |
| `Inbound.InitiationIsExact` | src/peer.c:852-889 | in every run, an initiation installs a session if and only if it was answered, its key is configured and both cooldowns are over; all members of the new session |
| `Outbound.ResponseInstalls` | src/peer.c:801-823 | in every run, a response to the first pending handshake for its address installs a new outbound session for that configuration |
| `Outbound.OutboundCompletes` | src/peer.c:632-660 | in every run, from the pass that starts a handshake to the session that a response within the time-out installs |
| `Keepalives.KeepaliveIsExact` | src/peer.c:677-689 | in every run, a pass sends a keepalive from a slot if and only if it is active, not expired, and nothing was sent from it for `keepalive_interval` |
| `Cooldown.TakeoverIsCooled` | src/peer.c:852-889 | a slot is taken over for another key only after its own cooldown |
| `Cooldown.InstallsAreApart` | src/peer.c:852-889 | on a relay with cooldown plus lag at most the expiry time plus one, two installs for one key are a cooldown apart in every run, even if packets stamp a session with a time read up to `lag` before the last install |
| `Cooldown.LagBreaksSpacing` | src/peer.c:665-666 | for all other settings, a run in which they are not |
| `NonInterference.PreviousKeyNonInterference` | src/peer.c:916-935 | deleting the previous-key packets of a run leaves all but traffic stamps and send counters (so every window, key and table entry otherwise) at every point, exactly if at no pass of the given run an expiry comes out differently when silence is counted from the last other packet |
| `NonInterference.SameVerdicts` | src/peer.c:916-935 | under that condition every other packet gets the same verdict from the same window |
| `Channel.LastSeenIsTheChannel` | src/peer.c:915 | a run in which a packet under the current key passes, but finds no session when an earlier previous-key packet is deleted |
| `Network.NoDoubleDelivery` | src/peer.c:914-936 | in every run of a network, of two times a peer hands on one datagram, one opened under a previous key |
| `Network.StepSlot` | src/peer.c:528 | what any step does to a slot's keys, window and send counter; only active sessions send, one number each |
| `Network.DeliveryIsExact` | src/peer.c:901-936 | in every run, a datagram under a slot's current key passes with its number and payload exactly if it comes from the slot's address, no lower active slot has the address, and no datagram of its number and none 2048 or more ahead was delivered under the key; otherwise it is dropped |
| `Network.FirstArrivalDelivered` | src/peer.c:914-936 | so a first arrival less than 2048 behind passes, unless the other end's datagram of that number was delivered before |
| `Network.VerdictIsExact` | src/peer.c:914-936 | in every run, the verdict on any sealed datagram in the slot that takes it: by number under the current key, passed under the previous key in its grace time, not opened under any other |
| `Network.RepeatIsExact` | src/peer.c:919-935 | in every run, a datagram handed on before is handed on again if and only if the slot that takes it holds its key as the previous key and the grace time has not passed |
| `Network.HandedOnWasRead` | src/peer.c:765-985 | in every run, whatever a peer hands on is an IPv4 packet that some peer read from its tunnel interface, through any number of relays |
| `Network.PreemptedByTheOtherEnd` | src/peer.c:528 | the only other datagram of a number under a key is one that another holder of the key sealed |
| `Corners.LowerSlotTakesThePacket` | src/peer.c:395-405 | a run of the network to two active sessions at one address, after which a new datagram of the higher slot is dropped |
| `Corners.OwnDatagramTakesTheNumber` | src/peer.c:914-935 | a run of the network in which a peer is handed its own datagram and the other end's of that number is then a replay |
| `Corners.RepeatsUnderPrevious` | src/peer.c:919-935 | a run of the network in which one datagram is handed on three times, twice under the previous key |
| `Relay.HubTransparency` | src/peer.c:954-985 | the bytes one peer reads are the bytes the other writes, and no datagram exceeds a wire buffer |
| `Relay.HandedOnPacketsAreAllowed` | src/peer.c:938-984 | in every run a packet handed on opened under a session key, passed the replay check if that was the current key, has an allowed source of the configured peer, and is relayed to the routed slot, never back |
| `Locking.MutualExclusion` | src/peer.c:112-119 | no two threads in one hot section, none in one while another writes the tables |
| `Locking.NoDeadlock` | src/peer.c:443-462 | from every thread that is not idle, a chain of threads each waiting for the next ends in one that can move, whether or not the lock prefers writers |
| `Locking.NoCircularWait` | src/peer.c:443-462 | no threads wait for each other in a circle, whatever the others do |
| `Locking.SendingIsSound` | src/peer.c:523-548 | in every interleaving: numbers of an epoch are 0, 1, 2, ... in order; every datagram takes key, number and address from one epoch; no entry is sent twice; every waiting thread waits for one that can move |
| `Locking.EachOnceUpTo2To64` | src/peer.c:528 | numbers of an epoch are distinct exactly up to 2^64 of them |
| `Reduction.InterleavingsAreRuns` | src/peer.c:895-987 | at every point of every interleaving of packet handling, a run of whole critical sections that merges the threads' packets in each thread's order has the same tables, but for send counters and `last_sent`, and the same outcome for every packet |
| `Tally.EqualAtRest` | src/peer.c:523-548 | between two passes, whenever all threads are at rest, the tables equal those of that run in all but `last_sent`, send counters included |
| `Tally.NextStamps` | src/peer.c:543-547 | in an interleaving, `last_sent` is written by the stamp after a successful send and by nothing else under the read lock |
| `Reduction.InterleavedTablesAreGood` | src/peer.c:395-405 | the table invariant holds at every point of every interleaving |
| `Reduction.InterleavedKeys` | src/peer.c:914-924 | which keys of its history a slot opens packets under, at every point of every interleaving |
| `Handshake.BuildPacket` | src/common.c:350-366 | the packet buffer holds magic, ephemeral key, encrypted identity and, with a pre-shared key, the HMAC |
| `Handshake.PacketRoundTrip` | src/common.c:388-412 | a built packet passes the checks and yields its parts |
| `Handshake.ResponderAccepts` | src/common.c:458-495 | accepted if and only if length, magic and HMAC are right, the ephemeral key is usable and the identity opens; that identity is reported |
| `Handshake.InitiatorAccepts` | src/common.c:388-437 | accepted if and only if length, magic and HMAC are right, the ephemeral key is usable and the identity is the expected one |
| `Handshake.AuthenticIsBuilt` | src/common.c:350-366 | the packets with right length, magic and HMAC are exactly those built under the same pre-shared key |
| `Handshake.OtherSecretIsRefused` | src/common.c:471-480 | a packet built under another pre-shared-key setting is refused, unless the two keys have one HMAC on it |
| `Handshake.InitiatorKeyInput` | src/common.c:439-442 | the seven parts that the initiator hashes, in order |
| `Handshake.ResponderKeyInput` | src/common.c:533-542 | the seven parts that the responder hashes, in order |
| `Handshake.BothSidesAgree` | src/common.c:320-545 | for all keys and either pre-shared-key setting, an undisturbed exchange gives both sides the same key and the responder the initiator's identity |
| `Handshake.KeyInputInjective` | src/common.c:248-265 | the hashed input determines its seven parts |
| `Handshake.SameKeyMeansAgreement` | src/common.c:382-545 | equal session keys mean agreement on ephemeral keys, static keys and roles, or a hash collision |
| `ConfigLoader.LoadConfig` | src/peer.c:203-361 | the event loop writing to the peer table does what the state machine says and stays within the table |
| `ConfigLoader.LoadKeepsLimits` | src/peer.c:275-348 | for every event stream at most 64 peers with at most 16 well-formed prefixes |
| `ConfigLoader.DocumentLoads` | src/peer.c:236-351 | a document with any other settings around and inside its peers is accepted if and only if it has at most 64 peers and each denotes a configuration (key, endpoint and prefixes parse, at most 16 prefixes), and loads to exactly those |
| `ConfigLoader.MalformedIsRefused` | src/peer.c:226-235 | a parser failure anywhere is an error |
| `Startup.LoadedIsInitial` | src/peer.c:275-280 | every document leaves tables from which runs start |
| `Startup.Boot` | src/peer.c:1097-1110 | a peer exactly if the document loads, lists a peer and the settings are valid, with its configurations and tables otherwise zero |
| `Startup.NeverFullAfterBoot` | src/peer.c:395-405 | for every document and every run after it, both calls of `alloc_session` find a slot |
| `Engine.Peer.constructor` | src/peer.c:105-109 | the tables start zero but for the configurations |
| `Ring.Insert` | rcunit/src/rcunit_list.c:35-42 | appends to the ring |
| `Ring.Remove` | rcunit/src/rcunit_list.c:44-51 | deletes one entry; an immediate second removal changes nothing |
| `Ring.Size` | rcunit/src/rcunit_list.c:53-65 | the number of entries |
| `Ring.Drain` | rcunit/src/rcunit_mtrace.c:365-377 | terminates, frees each entry once in order without following a freed one, leaves the empty ring |
| `PointerMap.FillAdds` | rcunit/src/rcunit_mtrace.c:118-120 | filling a free slot adds one pointer to the map |
| `PointerMap.ClearDrops` | rcunit/src/rcunit_mtrace.c:248-250 | clearing a slot drops exactly its pointer |
| `PointerMap.CountAndSum` | rcunit/src/rcunit_mtrace.c:327-341 | counting slots gives size and sum of the map |
| `PointerCache.Cache.CreateTable` | rcunit/src/rcunit_mtrace.c:32-51 | appends 32 free slots, or nothing if allocation fails |
| `PointerCache.Cache.FindFreeSlot` | rcunit/src/rcunit_mtrace.c:56-72 | a free slot, or none exactly if all are used |
| `PointerCache.Cache.SearchPtr` | rcunit/src/rcunit_mtrace.c:77-90 | the slot of a live pointer, or none exactly if it is not live |
| `PointerCache.Cache.CachePtr` | rcunit/src/rcunit_mtrace.c:95-122 | when it succeeds, the map with the pointer added; the number of tables stays that of the peak |
| `PointerCache.Cache.UncachePtr` | rcunit/src/rcunit_mtrace.c:236-259 | succeeds exactly for a live pointer and removes it |
| `PointerCache.Cache.CountLeaks` | rcunit/src/rcunit_mtrace.c:327-341 | leak count and size are size and sum of the map |

## Left out

- The internals of OpenSSL, sockets, epoll, signals, thread creation, the TUN device: foreign code.
- Name resolution, key files, hexadecimal and CIDR text: outcomes are arguments; `hex_to_bytes` depends on `sscanf`.
- The settings read by `load_config` other than the peer table, and the checks in `main` beyond `Params.Valid`.
- NonInterference.PreviousKeyNonInterference: send counters and `last_sent` are not compared, because a relayed previous-key packet does advance them in the slot it leaves from.
- Reduction.InterleavingsAreRuns: send counters and `last_sent` are not compared, because two packets may leave a slot in another order than they were received in, so that a pass may find different keepalives due; between two passes `Tally.EqualAtRest` compares the counters.
- Startup.Boot: leaves out the checks of `main` on interface, port and worker threads, because the model does not have these settings.
- Telling handshake from data datagrams by size and magic: depends on random nonce bytes.
- Ownership of ephemeral key objects: they are not freed when a response fails, so there is nothing to conserve.
- Overflow of `int` settings (such as `cfg_rekey_after * 4`) and of the counters of the allocation tracker: integers are unbounded there; `send_seq` and sequence numbers are 64 bits wide.
- The second and later clock readings inside one critical section: one reading stands for all.
- A session's scalar members are one record in a mutable object, with the window array beside it; the model does not capture separate writes to them outside `Locking`.
- The rest of the test framework (assertions, reports, `setjmp` exceptions, threads, the disabled table compaction): I/O, non-local jumps or dead code.
- Logging, `print_sessions`, scripts and packaging: no hard property.
