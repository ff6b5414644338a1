# RAC-kun, verified

RAC-kun is a peer-to-peer node for ring broadcast. Every member of a group keeps five circular orders ("rings")
over the same members, each sorted by `hash(id || ring index)`. A broadcast is written to the successors in all five
rings; a node that sees a message for the first time logs it, with a counter at zero for each of its predecessors,
and passes it on; later copies only raise a counter, so that a node can tell which predecessor did not forward
(a freerider). A newcomer calls an entry point with JOIN; the entry point floods a JOIN notification over the old
rings; every member takes the newcomer in and acknowledges directly; READY makes the newcomer take its own place and
tell its neighbours with READY_NOTIF, while members that are no neighbours of it rely on a timer.

This project models that protocol for one group and proves what it is for. It is a stack:

| module | file | what it holds |
|---|---|---|
| `Bytes` | Bytes.dfy | bytes, string order, decimal ports, the abstract hash |
| `Rings` | Ring.dfy | one ring as a sorted slot sequence; cyclic successor as an independent definition; class `Ring` |
| `Groups` | Group.dfy | five rings and the cached neighbours; class `Group` |
| `Stamping` | Stamp.dfy | stamps, and when two of them coincide |
| `Messages` | Message.dfy | the six message types on the wire, writer and reader |
| `Logs` | Log.dfy | the two-index history; class `History` |
| `Nodes` | Node.dfy | what one node does at each event, as functions on its state |
| `Networks` | Network.dfy | class `Network`: the same events carried out on fields, proved equal to `Nodes` |
| `Ledgers` | Ledger.dfy | counting of copies, log growth |
| `Invariants` | Invariant.dfy | what every event of one node keeps, over every run |
| `Counters` | Counter.dfy | each counter of the history: who sent which message, how often |
| `Limits` | Limits.dfy | exact conditions where the code keeps its tables only under a guard; disconnections |
| `Floods` | Flood.dfy | one flood over a fixed graph, with freeriders |
| `Systems` | System.dfy | many nodes and the copies in flight |
| `Broadcasts` | Broadcast.dfy | any number of concurrent data broadcasts over a stable view |
| `Joins` | Join.dfy | what one node does during a join, message by message |
| `JoinWorlds` | JoinWorld.dfy | the whole join: any interleaving, its invariant, its end |
| `JoinStarts` | JoinStart.dfy | the entry point's answer (founding case included) and the join theorem |
| `Lifecycles` | Lifecycle.dfy | two starting nodes can join, one join can follow another, and what has joined can broadcast |
| `Admissions` | Admission.dfy | the entry point over many joins |
| `Departures` | Departure.dfy | what becomes of each request: announced as it was made, waiting, or gone with its connection |
| `Arrears` | Arrear.dfy | a join that goes on while members do not rely on earlier newcomers yet and others ask |
| `Overlaps` | Overlap.dfy | the answer that begins the next join, at once, whatever the others still wait for |
| `Gatherings` | Gather.dfy | any number of overlapping joins: every run, its measure, its end |

The main results are `Broadcasts.RunKeeps`, `Broadcasts.SettledBroadcast`, `Broadcasts.EveryoneReceives`,
`JoinStarts.JoinConverges`, `Lifecycles.EveryoneJoins`, `Gatherings.JoinsOverlap`, `Gatherings.GroupGathers`,
`Lifecycles.JoinedCanBroadcast`, `Lifecycles.JoinedCanAdmit`, `Invariants.RunKeeps`, `Invariants.ProperRunConserves`, `Counters.RunCredits`,
`Admissions.RunAdmits`, `Admissions.AllAnswered`, `Admissions.NoticeMustFit`, `Admissions.LosingAPeer`,
`Admissions.StrandedForGood`, `Departures.LostForGood`, `Departures.RequestsConserved`, `Invariants.RunFiles`, `Limits.NoticeNeedsName`, `Limits.SurvivorsAgree`, `Messages.NormalForm`,
`Rings.OneCycle`, `Rings.SuccessorByDigest` and `Networks.Network.HandleIncomingMessage`.

## What is assumed

The code does not establish these; the theorems that need them say so in their `requires`.

- The hash is any function to 20-byte digests; the ring keys of the ids in play are distinct (`KeysDistinct`; by
  `Rings.DistinctByHash` exactly the absence of hash collisions among them).
- Ids have exactly 20 bytes and keys 5 (src/Utils.cpp:48-57 can yield a shorter id) wherever something is written to
  the wire.
- Stamps are parameters, and fresh where the theorem needs it: two messages of one author and type within one
  millisecond get the same stamp (src/Message.cpp:35-44), and the second is only counted as a copy.
- The marker of a received broadcast leads to the node's group (src/Network.cpp:650-651 follows it unchecked, and
  src/Network.cpp:265-270 never clears the markers).
- Pending peers have distinct addresses (include/Network.hpp:52-55).
- A node that is not connected and has peers is not sent a JOIN that leaves one of them out of the group it founds:
  it has none, or just the one that asks and is answered at once (`Limits.FoundingLeavesNobodyOut`: exactly then its
  tables stay right).
- A connected node does not call an entry point (`Limits.CallNeedsDisconnected`: exact). The `join` command refuses to
  (src/Main.cpp:73-75); the call made at startup (src/Main.cpp:57) may come after the listener has already let
  somebody in.
- READY_NOTIF comes from an identified peer. The handler does not look (src/Network.cpp:506-514), and
  `Limits.NoticeNeedsName` shows that its invariant survives if and only if it is so.
- In the runs of `Admissions.RunAdmits`, `RunAnnounces` and `AllAnswered`, a new READY_NOTIF that arrives while a
  newcomer is underway comes from that newcomer, and as a neighbour: `Admissions.NoticeMustFit` shows that admission
  stays as it should be if and only if it does, or nobody is underway. And no peer is lost: `Admissions.LosingAPeer`
  says exactly which losses admission survives, and `Admissions.StrandedForGood` what becomes of the others.
- JOIN and JOIN_ACK come over connections not yet filed under `peers`. Over a filed one the code renames the Peer
  object while the table keeps its old key, and a JOIN that has to wait leaves an entry without a peer in `new_peers`
  (src/Network.cpp:356), which the next check dereferences.
- The first JOIN_ACK a node handles names its group in full: the reader accepts one whose group id is cut short
  (src/Utils.cpp:143), and the node would then pass on a group id that does not fit the notification's format.
- READY arrives once the notification and its acknowledgements have arrived. This stands for the waiting time of
  src/Network.cpp:194-200; it may be sent any time before. `Limits.LateAck` says exactly what an acknowledgement
  handled after READY leaves wrong.
- Data broadcasts are followed over views that do not change, and a join over a wire that carries only that join and,
  in `Gatherings`, what is left of earlier ones.
- The next join begins once the newcomer before has taken its place. An entry point that relies on it because of
  READY_NOTIF knows that it has; one that relies on it because of its timer has waited JOIN_COMPLETE_TIME, twice
  READY_TIME (src/Config.cpp:55-56). Until then, and while others wait there, only the entry point of the join under
  way is asked.
- Ports are read as C++11 `operator>>` reads them: 0 when there is text but no number, 65535 when the number is too
  large. With nothing to read the variable, which is not initialised (src/Utils.cpp:103, src/Utils.cpp:129), keeps what
  it held: that value is the parameter `before`, and `Messages.PortIsThere` says exactly when it matters.

Where documentation and code differ, the code is followed: the comment at src/Message.cpp:37 hashes author and time into
a stamp, the code the message type as well, so only messages of one type can share a stamp (`Stamping.StampsCollide`).

## Model

| member | source | states |
|---|---|---|
| Bytes.RankKeepsOrder | src/Ring.cpp:29-38 | the number a digest spells orders digests as `std::map<string, ...>` does, so a ring may be sorted by numbers |
| Bytes.FirstDifferenceDecides | src/Network.cpp:204-213 | the order of `std::map<string, ...>`: a comes before b if and only if a is a proper beginning of b, or has the smaller byte where they first differ |
| Bytes.ReadPortInvertsItos | src/Utils.cpp:74-84 | reading back what `itos` wrote gives the port, for all 65536 ports |
| Bytes.ItosIsDecimal | src/Utils.cpp:74-84 | `itos` writes the one digit string of that value without a needless zero in front, and nothing else |
| Bytes.NumberRead | src/Utils.cpp:101-106 | what a port is read as: blanks before it, a plus sign, zeros in front and anything behind do not matter, too large a number gives 65535, a minus sign negates modulo 2^16 |
| Bytes.NoNumberRead | src/Utils.cpp:101-106 | and where no number stands: only blanks leave the variable alone, any other text makes it zero |
| Rings.PutIsMapUpdate | src/Ring.cpp:40-44 | inserting a slot keeps the sequence sorted and is map update, colliding keys included |
| Rings.EraseIsMapRemoval | src/Ring.cpp:46-52 | erasing keeps the sequence sorted and is map removal |
| Rings.SameMembersSameRing | src/Ring.cpp:40-52 | two rings of the same members are equal, whatever additions and removals led there |
| Rings.NextIsNext | src/Ring.cpp:54-64 | `get_successor` yields q if and only if nobody lies between p and q going round: the positional code meets the cyclic definition |
| Rings.PrevIsNext | src/Ring.cpp:66-76 | the same for `get_predecessor`, across the wrap |
| Rings.PrevUndoesNext | src/Ring.cpp:54-76 | q is p's successor if and only if p is q's predecessor |
| Rings.OneCycle | src/Ring.cpp:54-64 | from any member, following successors visits every member exactly once and returns after exactly n steps |
| Rings.SpliceIn | src/Ring.cpp:40-76 | adding x changes only the edge x is spliced into |
| Rings.Ring.AddPeer | src/Ring.cpp:40-44 | the in-place insertion refines `Put` |
| Rings.Ring.FindPeer | src/Ring.cpp:29-38 | the position of the peer's key, or the end when absent |
| Rings.Ring.RemovePeer | src/Ring.cpp:46-52 | the in-place removal refines `Erase`; absent peers change nothing |
| Rings.Ring.GetSuccessor | src/Ring.cpp:54-64 | refines `Next`, and says which that is: the member with the least digest above the peer's own, or the least of all if none is above; None stands for the exception, thrown exactly when the peer is absent or alone |
| Rings.Ring.GetPredecessor | src/Ring.cpp:66-76 | refines `Prev`: the greatest digest below the peer's own, or the greatest of all; the exception likewise |
| Rings.DistinctByHash | src/Ring.cpp:29-38 | ring keys are distinct if and only if the hash does not collide on the ids in play, ring by ring |
| Rings.KeysKeepOrder | src/Ring.cpp:29-38 | ring keys compare as the digests of `id` followed by the ring's number do, as strings |
| Rings.SuccessorByDigest | src/Ring.cpp:54-64 | the cyclic successor is the member with the least digest above one's own, or the least of all digests when none is above |
| Rings.PredecessorByDigest | src/Ring.cpp:66-76 | the cyclic predecessor is the member with the greatest digest below, or the greatest of all when none is below |
| Stamping.StampsCollide | src/Message.cpp:35-44 | unless the hash collides, two stamps are equal if and only if author, millisecond and type are |
| Stamping.ShortIdsCollide | src/Utils.cpp:47-57 | with ids of unequal length different authors can get one stamp, whatever the hash |
| Nodes.MarkerIsSymmetric | src/Network.cpp:687-694 | both ends of a channel compute the same marker |
| Nodes.MarkerHashesBoth | src/Network.cpp:687-694 | with the lower id first both ends hash the two ids in that order; a group's own marker hashes its id twice |
| Nodes.MarkersCoincide | src/Network.cpp:687-694 | among ids of one length, unless the hash collides, two channels have one marker if and only if they join the same two groups |
| Nodes.BroadcastsUnderOwnMarker | src/Network.cpp:123-187 | whatever a node broadcasts of its own, data or notification, goes to its successors under the hash of its group's id twice |
| Nodes.ForwardedOnce | src/Network.cpp:292-318 | a broadcast is passed on to the successors if and only if it is new and its marker is known, whoever sent it |
| Nodes.NotificationAdmits | src/Network.cpp:359-391 | a new notification takes the peer in, the token too, and is acknowledged, if and only if it names the node's group and not its channels |
| Nodes.ReadyDecides | src/Network.cpp:454-504 | a new READY makes the node take its place and tell the neighbours it then has, if it has a group and is not connected; otherwise it changes nothing but the log |
| Nodes.AcknowledgementFiles | src/Network.cpp:413-452 | a new JOIN_ACK files its sender as connected, drops the pending entry, and leaves the caches of a group it has as they are |
| Nodes.UnreadableIsIgnored | src/Network.cpp:284-541 | bytes of no known type, or too short for their type, change nothing and send nothing; all others are handled as the message they spell |
| Groups.UpdateIsExact | src/Group.cpp:66-87 | the recomputed caches are the union over five rings of the reference neighbours, both empty when the local peer is absent or alone |
| Groups.SameMembersSameRings | src/Group.cpp:30-64 | views with equal member sets have equal rings |
| Groups.HistoryDoesNotMatter | src/Group.cpp:30-64 | over all sequences of additions and removals from the empty group: if the same members remain, all five rings are the same |
| Groups.RemoveUndoesAdd | src/Group.cpp:36-64 | removing a peer restores all five rings |
| Groups.NeighboursAreMutual | src/Group.cpp:66-80 | q is among p's successors if and only if p is among q's predecessors, over the union of the rings |
| Groups.AtMostFive | src/Group.cpp:71-78 | at most one successor a ring |
| Groups.SuccessorsReachAll | src/Group.cpp:66-80 | a set closed under successors and not empty is the whole group |
| Groups.SpliceLocality | src/Group.cpp:36-64 | a member's neighbour sets change when x is added or removed if and only if x is its neighbour in the larger group |
| Groups.Group.AddToRings | src/Group.cpp:36-42 | the loop puts the peer in each of the five rings |
| Groups.Group.AddPeer | src/Group.cpp:30-34 | the new group value: peers and all rings |
| Groups.Group.RemovePeer | src/Group.cpp:58-64 | the new group value, and whether the peer was a member |
| Groups.Group.UpdateNeighbours | src/Group.cpp:66-87 | the loop with its exception refines the recomputation: both caches overwritten, or both cleared |
| Messages.RoundTrip | src/Utils.cpp:86-177 | reading a written message gives it back, for all six types |
| Messages.NormalForm | src/Utils.cpp:86-177 | for every byte string that is read at all, whatever the port variable held, writing and reading again changes nothing: cut fields, missing colon, no port, trailing bytes, any flag |
| Messages.PortIsThere | src/Utils.cpp:101-106 | what is read depends on the uninitialised port variable if and only if nothing but blanks stands where a port is due |
| Messages.CanonicalIsParsed | src/Utils.cpp:86-177 | the messages that can be read are exactly those with full-length fixed fields and a colon-free address |
| Messages.SerializeInjective | src/JoinNotifMessage.cpp:35-49 | different messages are written differently |
| Messages.SerializedStamp | src/Message.cpp:58-68 | bytes 1-20 of a written message are its stamp, the log's key, as soon as the stamp has its length |
| Messages.WrittenInPlace | src/JoinNotifMessage.cpp:35-49 | every fixed field of a written message stands at its offset, for all six types |
| Messages.NothingElseWritten | src/JoinNotifMessage.cpp:35-49 | and besides them only a request's port, a notification's flag and endpoint |
| Messages.WhatCanBeRead | src/Utils.cpp:86-177 | exactly which byte strings are read, and as which type: by the first byte and a least length |
| Messages.ReadInPlace | src/Utils.cpp:86-177 | what is read are the bytes at those offsets |
| Messages.SerializeMessage | src/JoinNotifMessage.cpp:35-49 | the step-by-step appends give the wire format of each type |
| Messages.ParseMessage | src/Utils.cpp:86-177 | the reader with its moving offset and its uninitialised port refines `Parse`, its failures included |
| Messages.ParseJoinNotif | src/Utils.cpp:109-136 | the richest case of the reader |
| Logs.InsertKeepsSound | include/Network.hpp:60-81 | a new entry keeps both indexes equal, stamps unique, and every entry readable under its own stamp |
| Logs.AckKeepsSound | include/Network.hpp:83-94 | so does crediting a copy |
| Logs.CreditAddsOne | include/Network.hpp:89-91 | crediting raises the sum of the counters by one, absent counters included |
| Logs.InsertTotal | src/Network.cpp:637-659 | logging a message adds exactly the sum of its initial counters to the log's total |
| Logs.AckTotal | include/Network.hpp:83-94 | one credit raises the log's total by one, whichever entry it hits |
| Logs.History.Find | src/Network.cpp:667-673 | writing the message out and looking up bytes 1-20 finds it if and only if its stamp is logged |
| Logs.History.Insert | src/Network.cpp:656-658 | the entry is filed last in order and under its stamp |
| Logs.History.Modify | include/Network.hpp:89-91 | one counter of one entry rises |
| Networks.Network.LogMessage | src/Network.cpp:633-665 | log once with predecessors at zero, then credit unless local: the whole new state |
| Ledgers.LoggedReadsBack | src/Network.cpp:633-665 | the entry of a message logged for the first time reads back as that message, every field of it |
| Networks.Network.ExpectedSenders | src/Network.cpp:643-655 | the loop builds zero for each predecessor of the group the marker leads to, none for direct messages |
| Networks.Network.Broadcast | src/Network.cpp:104-121 | one copy to each successor, and the message logged |
| Networks.Network.Send | src/Network.cpp:144-153 | one direct copy, logged |
| Networks.Network.SendReady | src/Network.cpp:155-167 | READY sent and its timer gone |
| Networks.Network.BroadcastData | src/Network.cpp:123-132 | a data message under the group's own marker |
| Networks.Network.AnswerJoinRequest | src/Network.cpp:169-202 | token taken, notification broadcast over the old rings, then acknowledged, READY timer armed: the whole new state and all transmissions |
| Networks.Network.AcknowledgeJoin | src/Network.cpp:543-578 | the newcomer is in the view before the caches are recomputed, and a timer is armed if and only if it is no neighbour |
| Networks.Network.FindKnown | src/Network.cpp:204-210 | the loop stops at the identified pending peer with the lowest address, or finds none |
| Networks.Network.CheckForNewPeers | src/Network.cpp:204-217 | answers that peer, or frees the token |
| Networks.Network.CompleteJoin | src/Network.cpp:219-231 | the peer connected, its timer gone, the next in line answered |
| Networks.Network.AddNewPeer | src/Network.cpp:42-53 | a pending, unidentified peer under its address |
| Networks.Network.Join | src/Network.cpp:55-75 | the caller is joining, holds a pending entry point and has logged its request |
| Networks.Network.HandleDisconnect | src/Network.cpp:233-271 | of a peer by id and address: removal twice over and recomputation if it is filed, its pending entry erased if not, and the reset when nobody is left |
| Networks.Network.HandleJoin | src/Network.cpp:322-357 | founding a group if need be, identification, logging, then answering or queueing by the token |
| Networks.Network.HandleJoinNotif | src/Network.cpp:359-411 | acknowledgement if and only if the notification is for our group and not for its channels |
| Networks.Network.HandleJoinAck | src/Network.cpp:413-452 | group adopted if new, sender filed everywhere, caches untouched |
| Networks.Network.HandleReady | src/Network.cpp:454-504 | place taken and neighbours told, only when not connected yet |
| Networks.Network.HandleReadyNotif | src/Network.cpp:506-515 | emitter connected, next in line answered |
| Networks.Network.Relay | src/Network.cpp:304-318 | a new message is credited if its emitter is known and forwarded if its marker is |
| Networks.Network.HandleIncomingMessage | src/Network.cpp:273-541 | on any bytes: the object's new state and all transmissions are those of the node function, unreadable bytes change nothing, and the node's invariant is kept |
| Ledgers.ReceiveCounts | src/Network.cpp:292-306 | whatever arrives, from whomever, the log keeps its order and its total rises by an exact amount, which is one if and only if requests and acknowledgements come from unidentified peers and all else from identified ones |
| Ledgers.ReceiveStaysSound | src/Network.cpp:292-306 | every entry stays readable under its own stamp as long as nobody nameless is admitted |
| Ledgers.ReceiveFiles | src/Network.cpp:292-315 | what handling a message adds to the log is its text or the text of a reply, everything written is logged, and no text logged before changes |
| Invariants.ReceiveKeeps | src/Network.cpp:292-515 | handling any message keeps tables, rings, caches and log right |
| Invariants.DisconnectKeeps | src/Network.cpp:233-271 | so does losing a peer |
| Invariants.RunKeeps | src/Network.cpp:42-578 | over every run of events: peers equal the group's members, all rings hold them plus the local peer exactly when connected, caches equal a recomputation, the group's marker leads to it, every log entry can be read again |
| Invariants.RunGrows | src/Network.cpp:633-665 | over every run that does not fail, whatever becomes of the tables: entries keep their place in the order of logging and their texts, and the log's total rises by the exact amount of each event |
| Invariants.RunFiles | src/Network.cpp:633-665 | the history is genuine: over every run that does not fail it gains only texts of messages heard or written in that run, under their stamps, and all that was written; no text changes |
| Invariants.RunRemembers | src/Network.cpp:333-335 | over every such run a marker once known leads where it led, even after starting over, and the node stays who it is |
| Invariants.ProperRunConserves | src/Network.cpp:292-306 | count conservation: over every run that does not fail, if requests and acknowledgements come from unidentified peers and other new messages from identified ones, the counters of the log sum to the readable copies received |
| Counters.ReceiveCredits | src/Network.cpp:292-306 | handling a copy raises the counter of exactly the peer it came from, under its stamp, and no other counter; a request or acknowledgement counts under the name it gives |
| Counters.RunCredits | src/Network.cpp:633-665 | peer by peer and message by message: over every run that does not fail, a counter rises by the copies of that message that came from that peer, and by nothing else |
| Invariants.StartingNodeIsFine | src/Network.cpp:33-40 | a starting node satisfies all of it |
| Limits.CallNeedsDisconnected | src/Network.cpp:55-75 | calling an entry point keeps the tables right if and only if the caller is not connected |
| Limits.FoundingLeavesNobodyOut | src/Network.cpp:322-357 | a JOIN at a node that is not connected leaves its tables right if and only if the node has no peers, or only the one that asks and is answered at once |
| Limits.LateAck | src/Network.cpp:413-452 | a JOIN_ACK handled after READY leaves the caches right if and only if its sender was known or is no neighbour |
| Limits.NoticeNeedsName | src/Network.cpp:506-515 | READY_NOTIF keeps the node's invariant if and only if its sender is identified |
| Limits.DisconnectPurges | src/Network.cpp:233-271 | afterwards the peer is in no table, no ring and no cache |
| Limits.PendingPurged | src/Network.cpp:262-270 | of a peer not filed, the pending entry at its address goes and nothing else changes, except that with no peer and no other entry left the node starts over |
| Limits.LosingSettles | src/Network.cpp:233-271 | losing any peers in any order, repeatedly too, ends settled among the rest, or starting over when nobody is left and nobody waits |
| Limits.SurvivorsAgree | src/Network.cpp:233-271 | survivors that learn of the same losses in different orders have equal rings and mutual neighbours |
| Floods.DeliverInv | src/Network.cpp:292-315 | each delivery keeps, on every edge, copies in flight plus counter equal to one if the sender has forwarded and zero if not |
| Floods.DeliverLowers | src/Network.cpp:114-120 | each delivery lowers 6 (nodes yet to log) + copies in flight |
| Floods.RunInv | src/Network.cpp:292-315 | so every sequence of deliveries keeps the accounts and is bounded |
| Floods.QuiescentIsComplete | src/Network.cpp:633-665 | with nothing in flight: logged exactly where reachable through forwarding nodes, each counter saying whether that predecessor forwarded, transmissions the sum of the forwarders' degrees and at most 5 n |
| Floods.RingFloodReachesAll | src/Network.cpp:104-121 | over the rings without freeriders everyone has it, exactly once from each predecessor |
| Systems.ArrivalIsDelivery | src/Network.cpp:292-315 | what a node does to its log and the wire is one delivery of the message's flood |
| Broadcasts.DataArrives | src/Network.cpp:292-315 | a data message at a settled member: credited; if new, logged with its predecessors and passed on |
| Broadcasts.LoggedIsBroadcast | src/Network.cpp:633-665 | in every reachable state, a member's entry of a broadcast reads back as what the originator sent, content included |
| Broadcasts.EnabledCanStep | src/Network.cpp:273-541 | no reachable state holds a copy that cannot be handled |
| Broadcasts.RunKeeps | src/Network.cpp:104-132 | over every interleaving of broadcasts and arrivals, all messages' accounts hold and each message arrives only so often |
| Broadcasts.SettledBroadcast | src/Network.cpp:643-654 | freerider exactness for the nodes' own logs, and at most 5 n transmissions |
| Broadcasts.EveryoneReceives | src/Network.cpp:643-665 | without freeriders each member's counters are one for exactly its cached predecessors, and its entry reads back as the originator's message |
| Joins.FirstNotice | src/Network.cpp:304-391 | a member's first notification: forwarded over the old successors, then the newcomer taken in and acknowledged, the token taken, timer armed if and only if no neighbour |
| Joins.LaterNotice | src/Network.cpp:292-302 | a later copy is only credited |
| Joins.AckArrives | src/Network.cpp:413-452 | the newcomer files the sender and adopts the group |
| Joins.ReadyArrives | src/Network.cpp:454-504 | the newcomer takes its place among everyone and writes READY_NOTIF to exactly its neighbours |
| Joins.NeighbourReady | src/Network.cpp:506-515 | READY_NOTIF completes the join at a neighbour and frees the token |
| Joins.TimerExpires | src/Network.cpp:219-231 | the timer completes it at a member that is no neighbour |
| Joins.BesideIsMutual | src/Network.cpp:560-577 | a member waits for READY_NOTIF if and only if the newcomer will send it one |
| JoinWorlds.EnabledAdvances | src/Network.cpp:273-578 | every enabled step of a join can be handled, keeps the join's invariant and moves its progress as specified |
| JoinWorlds.DrainedIsAcquainted | src/Network.cpp:194-200 | once notification and acknowledgements have arrived, every member was told and the newcomer knows them all |
| JoinWorlds.RunKeeps | src/Network.cpp:273-578 | over every interleaving the invariant holds and every step brings the end nearer |
| JoinWorlds.RunCompletes | src/Network.cpp:482-496 | over every run a member completes as often as it goes from waiting to relying: only by READY_NOTIF if a neighbour, only by its timer if not |
| JoinWorlds.QuiescentIsConverged | src/Network.cpp:359-578 | with nothing left to do, everyone including the newcomer holds the larger view, equal rings, exact caches, free tokens |
| JoinStarts.AloneIsGrouped | src/Network.cpp:323-338 | a lone node that founds a group is a member like any other |
| JoinStarts.AnswerStarts | src/Network.cpp:322-357 | the entry point's answer, founding case included, starts the join |
| JoinStarts.JoinConverges | src/Network.cpp:169-578 | every join: never stuck, at most 13 n + 1 steps, converged at the end, each old member having completed exactly once and by the one mechanism that fits |
| Lifecycles.TwoNodesCanJoin | src/Network.cpp:55-72 | two nodes that have just started, one of which has called the other, satisfy everything the join theorem asks for |
| Lifecycles.CallerIsNewcomer | src/Network.cpp:55-72 | so does any starting node that calls an entry point of a group of any size |
| Lifecycles.NextJoinCanBegin | src/Network.cpp:169-202 | the state one join ends in lets the next begin, at any entry point |
| Lifecycles.EveryoneJoins | src/Network.cpp:169-578 | however many newcomers join in turn, through whatever members and in whatever interleavings, all of them end in one converged group |
| Lifecycles.JoinedCanBroadcast | src/Network.cpp:123-132 | the state a join ends in satisfies the broadcast theorems' invariant, whoever rides free |
| Lifecycles.JoinedCanAdmit | src/Network.cpp:204-217 | and at every member the admission theorems' invariant |
| Admissions.StartAdmits | src/Network.cpp:33-40 | a starting node satisfies the admission invariant, so what follows holds of every run of an entry point |
| Admissions.RequestsKeeps | src/Network.cpp:322-357 | a request is answered in its own handler if and only if the token is free, by a group founded for it if there is none, and waits otherwise |
| Admissions.Checked | src/Network.cpp:204-217 | with nobody underway, the pending peer of lowest address is answered, or the token is free and nobody waits |
| Admissions.FirstAddressNext | src/Network.cpp:204-213 | however a join completes, the next to be answered is the first by address |
| Admissions.SmallerByteFirst | src/Network.cpp:204-213 | of two waiting addresses, the one with the smaller byte where they first differ is answered before the other, whatever their lengths |
| Admissions.LaterOvertakes | src/Network.cpp:204-213 | whoever asks while others wait, from an address before theirs, is answered before them |
| Admissions.RunAdmits | src/Network.cpp:169-231 | over every run, from the start: at most one newcomer underway, the token free if and only if none, everyone who asked answered or waiting, and answers plus free token equal completions plus the token at the start |
| Admissions.RunAnnounces | src/Network.cpp:169-187 | the group is told of a newcomer exactly once if it is answered, never otherwise |
| Admissions.AllAnswered | src/Network.cpp:204-231 | after as many completions as there were requests, nobody waits and all were answered |
| Admissions.NoticeMustFit | src/Network.cpp:506-515 | READY_NOTIF from a peer leaves admission as it should be if and only if nobody is underway, or it comes from the one who is, as a neighbour |
| Admissions.LosingAPeer | src/Network.cpp:233-271 | losing a peer leaves admission as it should be if and only if that peer is not underway and whoever has its timer armed does not become a neighbour |
| Admissions.DoubleCompletion | src/Network.cpp:219-231 | otherwise the newcomer's READY_NOTIF answers the next, and its timer, still armed, leaves the token wrong when it expires |
| Admissions.LosingTheNewcomer | src/Network.cpp:233-271 | losing a peer strands the entry point if and only if it was the one underway and a neighbour |
| Admissions.TimerRestores | src/Network.cpp:219-231 | if it was underway and no neighbour, its timer is still armed, and admission is as it should be once that expires |
| Admissions.StrandedForGood | src/Network.cpp:204-271 | a stranded entry point answers nobody, over every run that admission allows and whoever else is lost; without losses every request still waits |
| Admissions.AnyNoticeFrees | src/Network.cpp:506-515 | it is freed by a READY_NOTIF from any peer it has, since the code does not ask from which |
| Departures.LosingARequester | src/Network.cpp:262-270 | losing a connection not filed under `peers` always leaves admission as it should be, and forgets exactly the request that came over it |
| Departures.LostForGood | src/Network.cpp:233-271 | a requester that hangs up while it waits is neither announced nor taken in, over every run of any events, unless some message names it anew |
| Departures.HeldUntilAnswered | src/Network.cpp:204-271 | until then its request stays in the queue, as it was, over every run of what admission allows and of losses, or is announced |
| Departures.StrandedUntilLost | src/Network.cpp:204-271 | at a stranded entry point it stays there until its connection is lost |
| Departures.RequestsConserved | src/Network.cpp:169-217 | over every such run the group is told only of requests as they were made, with the address, id, key and port of the one who asked, and without losses every request was told or waits as it was made |
| Departures.CallArrives | src/Network.cpp:55-75 | the request a caller writes, once read at an entry point, is told to the group or queued with the caller's own id and key, its listening port and the address it called from |
| Departures.ReadyStaysDue | src/Network.cpp:155-201 | READY falls due for exactly those the group is told of, and stays due until it is sent, over every such run |
| Departures.NoticeConnects | src/Network.cpp:506-515 | whoever says it is ready counts as connected, wherever it is filed, even when it is answered in the same handler |
| Arrears.StepKeepsOrder | src/Network.cpp:273-578 | whatever members still owe earlier newcomers, and whoever waits at the entry point, a step of the join under way can be handled and does what it does without all that |
| Arrears.SettlingKeepsOrder | src/Network.cpp:219-231 | a late READY_NOTIF or timer settles one debt and is nothing to the join under way |
| Arrears.AskingKeepsOrder | src/Network.cpp:341-356 | a request while the token is taken waits, and is nothing to the join under way |
| Overlaps.RequestOpens | src/Network.cpp:322-357 | a request at any member that owes nobody begins the next join at once, however far behind the others are |
| Overlaps.NoticeOpens | src/Network.cpp:506-515 | so does READY_NOTIF at an entry point where others wait, for the one of least address |
| Overlaps.TimerOpens | src/Network.cpp:219-231 | and so does its timer |
| Gatherings.MoveKeepsOrder | src/Network.cpp:42-578 | whatever is due in a run of overlapping joins can be handled and keeps everything in order, and nobody who called is lost |
| Gatherings.RunGathers | src/Network.cpp:42-578 | so over every run: whoever called has joined, is joining or waits, and for each newcomer only so much can happen |
| Gatherings.NothingStuck | src/Network.cpp:204-231 | when nothing more arrives and no timer is armed, the entry point is about to hear of its newcomer and answer the next, or nobody waits, everyone relies on everyone and nothing is in flight |
| Gatherings.JoinsOverlap | src/Network.cpp:169-578 | joins begun as soon as the code answers, whatever the others still wait for: never stuck, at most 13 n + 1 steps for each newcomer, and in the end one converged group of everyone who called |
| Gatherings.GroupGathers | src/Network.cpp:55-578 | so from two starting nodes on |

## Left out

- Sockets, threads, name resolution, connection failures and the 1024-byte receive buffer (src/Network.cpp:77-102, src/Peer.cpp, src/Listener.cpp): one whole message per step, delivered in any order.
- Clocks: the timers of READY and of join completion are steps that may happen whenever they are armed; READY's arrival waits for the rest of the join instead of three seconds.
- `make_stamp` and the group id of a founder (src/Message.cpp:35-44, src/Network.cpp:328-331): stamps and ids are parameters.
- SHA-1 and its output (src/Utils.cpp:179-194): any function to 20 bytes.
- More than one group, channels, and `Group::add_to_rings(group)` (src/Group.cpp:44-56); with them the scan of other groups in `handle_disconnect`, which never advances its iterator (src/Network.cpp:253-259), and the channel branch of a notification (src/Network.cpp:393-408). A node that keeps to one group reaches none of this; the one way to a second group without channels is in the next line.
- Limits.FoundingLeavesNobodyOut: a node that is still joining and has a group of its own when a JOIN makes it found one keeps both in `groups` (src/Network.cpp:323-338, src/Network.cpp:682), and a READY would then be answered in the old one too (src/Network.cpp:460-502); here the new group takes the place of the old.
- Group split and merge, onion routing, key pairs, id computation: not in the repository either (README.md:115-185).
- Joins that overlap data broadcasts, or each other while a newcomer has not taken its place yet, as through two entry points at once: floods over changing views can be cut, since nothing is sent again. `Gatherings.JoinsOverlap` lets joins overlap from then on.
- `send_all`, displays, printing, settings, command line (src/Network.cpp:134-142, src/Network.cpp:580-631): output only. That printing the log never fails to read an entry is part of `Invariants.RunKeeps`.
- Peer objects are values in the tables: two tables naming one peer hold copies, and each is updated where the code updates the object through that table. Aliasing beyond that is not modelled.
- The number and type of control counters: unbounded here, `int` in include/Network.hpp:65.
- Networks.Network.HandleJoin: not over a connection already filed under `peers`, where the code renames the Peer object under its old key and may queue an entry without a peer; the table of values has no such state.
- Networks.Network.HandleJoinAck: not over a connection already filed, for the same reason.
- Networks.Network.HandleIncomingMessage: requires that the handler does not follow a marker to a group that is gone, that JOIN and JOIN_ACK come over connections not filed yet, and that clock and hash supply full-length stamps.
- Ledgers.ReceiveCounts: not for JOIN and JOIN_ACK over a filed connection, like the handlers.
- Ledgers.ReceiveStaysSound: not for JOIN and JOIN_ACK over a filed connection, like the handlers.
- Invariants.ReceiveKeeps: READY_NOTIF only from an identified peer; exact by `Limits.NoticeNeedsName`.
- Admissions.RunAdmits: READY_NOTIF only as "What is assumed" says, exact by `Admissions.NoticeMustFit`; nor from a pending peer that is identified but not answered yet.
- Invariants.RunKeeps: assumes of each message what "What is assumed" says; each of these conditions on a handler's outcome has its exact form in `Limits`.
- Networks.Network.Join: assumes the connection succeeds; a failed one changes nothing (src/Network.cpp:72-74).
- Admissions.AllAnswered: speaks of totals; which of several waiting peers goes next is by address, so one peer can be overtaken as long as others keep asking.
