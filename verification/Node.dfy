/** What one node does: its state and, for every event, the state and the
    transmissions that follow. */
module Nodes {
  import opened Bytes
  import opened Rings
  import opened Groups
  import opened Messages
  import opened Logs

  type Address = Bytes

  datatype PeerState = New | Joining | Connected

  /** A connection not yet in `peers`, filed under its address: the peer at the
      other end, and its listening port once it has asked to join. */
  datatype Pending = Pending(id: Id, pubKey: Bytes, state: PeerState, port: Port)

  /** The hash, and the ring keys it gives. */
  datatype Env = Env(h: Hash, key: RingKeys)

  datatype Node = Node(
    id: Id,
    pubKey: Bytes,
    state: PeerState,
    peers: map<Id, PeerState>,
    group: Option<View>,
    newPeers: map<Address, Pending>,
    joinToken: bool,
    markers: map<Bytes, Bytes>,
    log: Log,
    readyTimers: set<Id>,
    joinTimers: set<Id>)

  /** The connection an event arrives on. */
  datatype Link = Member(id: Id) | Unsorted(address: Address)

  /** One message written to the sockets of some peers. */
  datatype Sent = Sent(message: Msg, to: set<Id>)

  datatype Outcome = Outcome(node: Node, sends: seq<Sent>)

  /** What the clock and the hash would supply: a fresh group id and the stamps
      of at most two new messages. */
  datatype Stamps = Stamps(groupId: Bytes, first: Bytes, second: Bytes)

  // ------------------------------------------------------------- parts

  /** make_channel_marker: the lower id goes first. */
  function MakeMarker(h: Hash, a: Bytes, b: Bytes): Bytes {
    if Less(a, b) then h(a + b) else h(b + a)
  }

  /** Both ends of a channel compute one marker. */
  lemma MarkerIsSymmetric(h: Hash, a: Bytes, b: Bytes)
    ensures MakeMarker(h, a, b) == MakeMarker(h, b, a)
  {
    LessTotal(a, b);
  }

  /** With the lower id first, both ends hash the same text. */
  lemma MarkerHashesBoth(h: Hash, a: Bytes, b: Bytes)
    ensures Less(a, b) ==> MakeMarker(h, a, b) == MakeMarker(h, b, a) == h(a + b)
    ensures MakeMarker(h, a, a) == h(a + a)
  {
    LessTotal(a, b);
    LessTotal(a, a);
  }

  lemma HalvesOf(a: Bytes, b: Bytes, c: Bytes, d: Bytes)
    requires |a| == |c| && a + b == c + d
    ensures a == c && b == d
  {
    assert (a + b)[..|a|] == a && (c + d)[..|c|] == c;
    assert (a + b)[|a|..] == b && (c + d)[|c|..] == d;
  }

  /** Among ids of one length, and unless the hash collides on the texts in play,
      a marker stands for one pair of groups, in whatever order. */
  lemma MarkersCoincide(h: Hash, a: Bytes, b: Bytes, c: Bytes, d: Bytes)
    requires |a| == |b| == |c| == |d|
    requires forall s, t | s in {a + b, b + a, c + d, d + c} && t in {a + b, b + a, c + d, d + c} && h(s) == h(t) ::
               s == t
    ensures MakeMarker(h, a, b) == MakeMarker(h, c, d) <==> {a, b} == {c, d}
  {
    var s, t := if Less(a, b) then a + b else b + a, if Less(c, d) then c + d else d + c;
    assert s in {a + b, b + a, c + d, d + c} && t in {a + b, b + a, c + d, d + c};
    if s == t {
      HalvesOf(if Less(a, b) then a else b, if Less(a, b) then b else a,
               if Less(c, d) then c else d, if Less(c, d) then d else c);
    }
    if {a, b} == {c, d} {
      assert (a == c && b == d) || (a == d && b == c) by {
        assert a in {c, d} && b in {c, d} && c in {a, b} && d in {a, b};
      }
      MarkerIsSymmetric(h, c, d);
    }
  }

  /** The marker leads to the group this node has. */
  predicate Routable(n: Node, marker: Bytes) {
    n.group.Some? && marker in n.markers && n.markers[marker] == n.group.value.id
  }

  /** Who is expected to send the message: our predecessors, if it travels the
      rings. */
  function Expected(n: Node, m: Msg): Control
    requires m.IsBroadcast() ==> n.group.Some?
  {
    if m.IsBroadcast() then Zeros(n.group.value.predecessors) else map[]
  }

  /** log_message; from is None when the local peer is the emitter. */
  function LogMessage(n: Node, m: Msg, from: Option<Id>): (r: Node)
    requires m.IsBroadcast() && !n.log.Logged(m.stamp) ==> Routable(n, m.marker)
    ensures r == n.(log := r.log) && r.log.Logged(m.stamp)
  {
    var log := if n.log.Logged(m.stamp) then n.log else n.log.Insert(m, Expected(n, m));
    n.(log := if from.Some? then log.Ack(m.stamp, from.value) else log)
  }

  function Broadcast(n: Node, m: Msg): Outcome
    requires m.IsBroadcast() && Routable(n, m.marker)
  {
    Outcome(LogMessage(n, m, None), [Sent(m, n.group.value.successors)])
  }

  function Send(n: Node, m: Msg, to: set<Id>): Outcome
    requires !m.IsBroadcast()
  {
    Outcome(LogMessage(n, m, None), [Sent(m, to)])
  }

  /** acknowledge_join: take x, who has state `as`, into the view, tell it so,
      and arm a timer unless it became a direct neighbour. */
  function AcknowledgeJoin(env: Env, n: Node, x: Id, asState: PeerState, ackStamp: Bytes): Outcome
    requires n.group.Some?
  {
    var v := n.group.value.AddPeer(env.key, x).UpdateNeighbours(env.key, n.id);
    var ack := JoinAck(ackStamp, v.id, n.id, n.pubKey);
    var o := Send(n.(peers := n.peers[x := asState], group := Some(v)), ack, {x});
    if x !in v.predecessors && x !in v.successors
    then o.(node := o.node.(joinTimers := o.node.joinTimers + {x}))
    else o
  }

  /** answer_join_request to the pending peer at this address. */
  function AnswerJoin(env: Env, n: Node, a: Address, port: Port, st: Stamps): Outcome
    requires HasOwnMarker(env, n) && a in n.newPeers
  {
    var gid := n.group.value.id;
    var x := n.newPeers[a];
    var notif := JoinNotif(st.first, MakeMarker(env.h, gid, gid), false, gid, x.id, x.pubKey, a, port);
    var told := Broadcast(n.(joinToken := false), notif);
    var acked := AcknowledgeJoin(env, told.node.(newPeers := told.node.newPeers - {a}), x.id, x.state, st.second);
    Outcome(acked.node.(readyTimers := acked.node.readyTimers + {x.id}), told.sends + acked.sends)
  }

  /** The pending peer the loop in check_for_new_peers stops at. */
  ghost predicate FirstKnown(newPeers: map<Address, Pending>, a: Address) {
    && a in newPeers && newPeers[a].state != New
    && forall b | b in newPeers && newPeers[b].state != New :: a == b || Less(a, b)
  }

  ghost predicate NobodyKnown(newPeers: map<Address, Pending>) {
    forall a | a in newPeers :: newPeers[a].state == New
  }

  lemma {:induction false} LeastOf(some: set<Address>) returns (a: Address)
    requires some != {}
    ensures a in some && forall b | b in some :: a == b || Less(a, b)
    decreases |some|
  {
    a :| a in some;
    if some != {a} {
      var rest := LeastOf(some - {a});
      LessTotal(a, rest);
      if Less(rest, a) {
        a := rest;
      } else {
        forall b | b in some
          ensures a == b || Less(a, b)
        {
          if b != a && b != rest {
            LessTransitive(a, rest, b);
          }
        }
      }
    }
  }

  /** If anybody is identified, the loop stops at exactly one. */
  lemma SomebodyFirst(newPeers: map<Address, Pending>)
    ensures !NobodyKnown(newPeers) <==> exists a :: FirstKnown(newPeers, a)
  {
    var known := set a | a in newPeers && newPeers[a].state != New;
    if known != {} {
      var a := LeastOf(known);
      assert forall b | b in newPeers && newPeers[b].state != New :: b in known;
      assert FirstKnown(newPeers, a);
    } else {
      assert forall a | a in newPeers && newPeers[a].state != New :: a in known;
    }
  }

  lemma OneFirstKnown(newPeers: map<Address, Pending>)
    ensures forall a, b | FirstKnown(newPeers, a) && FirstKnown(newPeers, b) :: a == b
  {
    forall a, b | FirstKnown(newPeers, a) && FirstKnown(newPeers, b)
      ensures a == b
    {
      LessTotal(a, b);
    }
  }

  predicate HasOwnMarker(env: Env, n: Node) {
    n.group.Some? && Routable(n, MakeMarker(env.h, n.group.value.id, n.group.value.id))
  }

  /** Answering somebody takes a group. */
  ghost predicate CanCheck(env: Env, n: Node) {
    NobodyKnown(n.newPeers) || HasOwnMarker(env, n)
  }

  /** check_for_new_peers: answer the first identified pending peer, or free the
      token when there is none. */
  ghost function CheckForNewPeers(env: Env, n: Node, st: Stamps): Outcome
    requires CanCheck(env, n)
  {
    if exists a :: FirstKnown(n.newPeers, a) then
      var a :| FirstKnown(n.newPeers, a);
      AnswerJoin(env, n, a, n.newPeers[a].port, st)
    else
      Outcome(n.(joinToken := true), [])
  }

  /** The marker of this group leads to it, unless it led somewhere before. */
  function WithMarker(env: Env, markers: map<Bytes, Bytes>, groupId: Bytes): map<Bytes, Bytes> {
    var marker := MakeMarker(env.h, groupId, groupId);
    if marker in markers then markers else markers[marker := groupId]
  }

  /** A node outside any group starts one, and takes its place on its rings. */
  function Found(env: Env, n: Node, groupId: Bytes): Node {
    n.(state := Connected,
       group := Some(EmptyView(groupId).AddToRings(env.key, n.id)),
       markers := WithMarker(env, n.markers, groupId))
  }

  predicate LinkOk(n: Node, link: Link) {
    match link
    case Member(id) => id in n.peers
    case Unsorted(a) => a in n.newPeers
  }

  /** Peer::is_known for the emitter. */
  predicate Known(n: Node, link: Link)
    requires LinkOk(n, link)
  {
    match link
    case Member(id) => n.peers[id] != New
    case Unsorted(a) => n.newPeers[a].state != New
  }

  function EmitterId(n: Node, link: Link): Id
    requires LinkOk(n, link)
  {
    match link
    case Member(id) => id
    case Unsorted(a) => n.newPeers[a].id
  }

  // ------------------------------------------------------------ events

  /** add_new_peer: somebody connected from this address. */
  function Accept(n: Node, a: Address): Node {
    n.(newPeers := n.newPeers[a := Pending([], [], New, 0)])
  }

  /** join: call the entry point at this address. */
  function CallEntryPoint(n: Node, entry: Address, port: Port, stamp: Bytes): (Node, Msg) {
    var m := Join(stamp, n.id, n.pubKey, port);
    (LogMessage(Accept(n, entry).(state := Joining), m, None), m)
  }

  /** broadcast_data */
  function BroadcastData(env: Env, n: Node, content: Bytes, stamp: Bytes): Outcome
    requires HasOwnMarker(env, n)
  {
    var gid := n.group.value.id;
    Broadcast(n, Data(stamp, MakeMarker(env.h, gid, gid), content))
  }

  /** send_ready, when its timer expires. */
  function SendReady(n: Node, x: Id, stamp: Bytes): Outcome {
    var o := Send(n, Ready(stamp), {x});
    o.(node := o.node.(readyTimers := o.node.readyTimers - {x}))
  }

  /** complete_join, when its timer expires. */
  ghost function CompleteJoin(env: Env, n: Node, x: Id, st: Stamps): Outcome
    requires CanCheck(env, n)
  {
    CheckForNewPeers(env,
                     n.(peers := if x in n.peers then n.peers[x := Connected] else n.peers,
                        joinTimers := n.joinTimers - {x}),
                     st)
  }

  /** handle_disconnect of the peer with this id at this address. With one
      group, every known peer is in it, so the scan of the other groups is not
      reached. */
  function HandleDisconnect(env: Env, n: Node, p: Id, a: Address): Node
    requires p in n.peers ==> n.group.Some?
  {
    var left :=
      if p in n.peers then
        var v := n.group.value.RemovePeer(env.key, p).RemovePeer(env.key, p);
        n.(peers := n.peers - {p}, group := Some(v.UpdateNeighbours(env.key, n.id)))
      else n.(newPeers := n.newPeers - {a});
    if left.peers == map[] && left.newPeers == map[] then left.(group := None, state := New) else left
  }

  // ------------------------------------------------- incoming messages

  /** The marker of a new group does not already lead elsewhere. */
  predicate MarkerFree(env: Env, n: Node, groupId: Bytes) {
    var marker := MakeMarker(env.h, groupId, groupId);
    marker in n.markers ==> n.markers[marker] == groupId
  }

  /** READY_NOTIF: the emitter has taken its place. */
  function Seen(n: Node, link: Link): Node
    requires LinkOk(n, link)
  {
    match link
    case Member(id) => n.(peers := n.peers[id := Connected])
    case Unsorted(a) => n.(newPeers := n.newPeers[a := n.newPeers[a].(state := Connected)])
  }

  /** What processing a message needs so as not to fail or leave the single
      group: JOIN and JOIN_ACK come over connections not yet in `peers`, all
      acknowledgements name one group, and whoever answers a request has one. */
  ghost predicate CanProcess(env: Env, n: Node, link: Link, m: Msg, st: Stamps) {
    && LinkOk(n, link)
    && (m.Join? || m.JoinAck? ==> link.Unsorted?)
    && (m.Join? ==> if n.state == Connected then HasOwnMarker(env, n) else MarkerFree(env, n, st.groupId))
    && (m.JoinAck? && n.group.Some? ==> m.groupId == n.group.value.id)
    && (m.ReadyNotif? ==> CanCheck(env, Seen(n, link)))
  }

  /** Logging and forwarding follow the marker to a live group. */
  predicate CanRoute(n: Node, link: Link, m: Msg)
    requires LinkOk(n, link)
  {
    m.IsBroadcast() && (Known(n, link) || m.marker in n.markers) ==> Routable(n, m.marker)
  }

  ghost predicate CanReceive(env: Env, n: Node, link: Link, m: Msg, st: Stamps) {
    LinkOk(n, link) && (!n.log.Logged(m.stamp) ==> CanRoute(n, link, m) && CanProcess(env, n, link, m, st))
  }

  /** A notification that concerns our group, not its channels. */
  predicate Admits(n: Node, m: Msg) {
    m.JoinNotif? && n.group.Some? && m.groupId == n.group.value.id && !m.channel
  }

  ghost function Process(env: Env, n: Node, link: Link, m: Msg, st: Stamps): Outcome
    requires CanProcess(env, n, link, m, st)
  {
    match m
    case Join(_, id, pubKey, port) =>
      var a := link.address;
      var up := if n.state != Connected then Found(env, n, st.groupId) else n;
      var named := up.(newPeers := up.newPeers[a := up.newPeers[a].(id := id, pubKey := pubKey, state := Joining)]);
      var logged := LogMessage(named, m, Some(id));
      if logged.joinToken then AnswerJoin(env, logged, a, port, st)
      else Outcome(logged.(newPeers := logged.newPeers[a := logged.newPeers[a].(port := port)]), [])
    case JoinNotif(_, _, _, _, peerId, _, _, _) =>
      if Admits(n, m) then AcknowledgeJoin(env, n.(joinToken := false), peerId, Joining, st.first)
      else Outcome(n, [])
    case JoinAck(_, groupId, peerId, _) =>
      var based :=
        if n.group.Some? then n
        else n.(group := Some(EmptyView(groupId)), markers := WithMarker(env, n.markers, groupId));
      var taken := based.(newPeers := based.newPeers - {link.address},
                          peers := based.peers[peerId := Connected],
                          group := Some(based.group.value.AddPeer(env.key, peerId)));
      Outcome(LogMessage(taken, m, Some(peerId)), [])
    case Ready(_) =>
      if n.group.Some? && n.state != Connected then
        var v := n.group.value.AddToRings(env.key, n.id).UpdateNeighbours(env.key, n.id);
        Send(n.(state := Connected, group := Some(v)), ReadyNotif(st.first), v.predecessors + v.successors)
      else Outcome(n, [])
    case ReadyNotif(_) => CheckForNewPeers(env, Seen(n, link), st)
    case Data(_, _, _) => Outcome(n, [])
  }

  /** Log a new message, credit whoever sent it if known, and pass it on. */
  function Relay(n: Node, link: Link, m: Msg): (o: Outcome)
    requires LinkOk(n, link) && CanRoute(n, link, m)
    ensures o.node == n.(log := o.node.log)
  {
    var credited := if Known(n, link) then LogMessage(n, m, Some(EmitterId(n, link))) else n;
    if m.IsBroadcast() && m.marker in n.markers then Broadcast(credited, m) else Outcome(credited, [])
  }

  /** handle_incoming_message, once parsed. A message seen before is only
      credited. */
  ghost function Receive(env: Env, n: Node, link: Link, m: Msg, st: Stamps): Outcome
    requires CanReceive(env, n, link, m, st)
  {
    if n.log.Logged(m.stamp) then
      Outcome(n.(log := n.log.Ack(m.stamp, EmitterId(n, link))), [])
    else
      var told := Relay(n, link, m);
      var done := Process(env, told.node, link, m, st);
      Outcome(done.node, told.sends + done.sends)
  }

  /** Bytes that do not parse change nothing. */
  ghost function ReceiveBytes(env: Env, n: Node, link: Link, w: Bytes, before: Port, st: Stamps): Outcome
    requires Parse(w, before).Success? ==> CanReceive(env, n, link, Parse(w, before).message, st)
  {
    match Parse(w, before)
    case Failure(_) => Outcome(n, [])
    case Success(m) => Receive(env, n, link, m, st)
  }

  // ------------------------------------------------------- invariants

  /** Who is on the rings of a node's group: its peers, and itself exactly when
      it is connected. */
  ghost function OnRings(n: Node): set<Id> {
    n.peers.Keys + if n.state == Connected then {n.id} else {}
  }

  /** The node's tables agree: `peers` with the group, the five rings with
      both, and the group's marker with the group. */
  ghost predicate Consistent(env: Env, n: Node) {
    match n.group
    case None => n.peers == map[] && n.state != Connected
    case Some(v) =>
      && v.peers == n.peers.Keys && n.id !in n.peers
      && RingsHold(env.key, v, OnRings(n))
      && HasOwnMarker(env, n)
  }

  /** The cached neighbours are what a recomputation would give. */
  ghost predicate CacheRight(env: Env, n: Node) {
    n.group.Some? ==> CacheExact(env.key, n.group.value, OnRings(n), n.id)
  }

  // ------------------------------------------------- what is broadcast

  /** A node broadcasts of its own only data and notifications, and under one
      marker: the hash of its group's id, twice. */
  lemma BroadcastsUnderOwnMarker(env: Env, n: Node, content: Bytes, stamp: Bytes, a: Address, port: Port, st: Stamps)
    requires HasOwnMarker(env, n)
    ensures var g := n.group.value.id;
            && BroadcastData(env, n, content, stamp).sends
               == [Sent(Data(stamp, env.h(g + g), content), n.group.value.successors)]
            && (a in n.newPeers ==>
                forall sent | sent in AnswerJoin(env, n, a, port, st).sends && sent.message.IsBroadcast() ::
                  sent.message.marker == env.h(g + g) && sent.to == n.group.value.successors)
  {
    hide LogMessage, View.AddPeer, View.UpdateNeighbours, MakeMarker;
    MarkerHashesBoth(env.h, n.group.value.id, n.group.value.id);
  }

  /** A broadcast is passed on to the successors exactly when it is new and its
      marker is known, whoever sent it, identified or not. */
  lemma ForwardedOnce(env: Env, n: Node, link: Link, m: Msg, st: Stamps)
    requires CanReceive(env, n, link, m, st) && m.IsBroadcast()
    ensures var sends := Receive(env, n, link, m, st).sends;
            && ((exists s :: s in sends && s.message == m) <==> !n.log.Logged(m.stamp) && m.marker in n.markers)
            && forall s | s in sends && s.message == m :: n.group.Some? && s.to == n.group.value.successors
  {
    hide LogMessage, View.AddPeer, View.UpdateNeighbours;
    if !n.log.Logged(m.stamp) && m.marker in n.markers {
      assert Receive(env, n, link, m, st).sends[0] == Sent(m, n.group.value.successors);
    }
  }

  /** A new notification makes the node take the peer in, and acknowledge, exactly
      when it names the node's group and does not concern its channels. */
  lemma NotificationAdmits(env: Env, n: Node, link: Link, m: Msg, st: Stamps)
    requires CanReceive(env, n, link, m, st) && m.JoinNotif? && !n.log.Logged(m.stamp)
    ensures var o := Receive(env, n, link, m, st);
            var ours := n.group.Some? && m.groupId == n.group.value.id && !m.channel;
            && o.node.peers == (if ours then n.peers[m.peerId := Joining] else n.peers)
            && o.node.joinToken == (!ours && n.joinToken)
            && ((exists s :: s in o.sends && s.message.JoinAck? && s.to == {m.peerId}) <==> ours)
  {
    hide LogMessage, View.AddPeer, View.UpdateNeighbours;
    var told := Relay(n, link, m);
    var done := Process(env, told.node, link, m, st);
    if Admits(n, m) {
      assert done.sends[0].message.JoinAck? && done.sends[0].to == {m.peerId};
      assert done.sends[0] in told.sends + done.sends;
    }
  }

  /** A new READY makes the node take its place and tell the neighbours it then
      has, once: not when it is connected, nor without a group. */
  lemma ReadyDecides(env: Env, n: Node, link: Link, m: Msg, st: Stamps)
    requires CanReceive(env, n, link, m, st) && m.Ready? && !n.log.Logged(m.stamp)
    ensures var o := Receive(env, n, link, m, st);
            if n.group.Some? && n.state != Connected then
              && o.node == n.(state := Connected, group := o.node.group, log := o.node.log) && o.node.group.Some?
              && var v := o.node.group.value; o.sends == [Sent(ReadyNotif(st.first), v.predecessors + v.successors)]
            else o == Outcome(n.(log := o.node.log), [])
  {
    hide LogMessage, View.AddToRings, View.UpdateNeighbours;
  }

  /** A new JOIN_ACK files its sender as connected, and that is all but for the
      group: the caches of one it has already stay as they are. */
  lemma AcknowledgementFiles(env: Env, n: Node, a: Address, m: Msg, st: Stamps)
    requires CanReceive(env, n, Unsorted(a), m, st) && m.JoinAck? && !n.log.Logged(m.stamp)
    ensures var o := Receive(env, n, Unsorted(a), m, st);
            && o.sends == [] && o.node.group.Some?
            && o.node == n.(peers := n.peers[m.peerId := Connected], newPeers := n.newPeers - {a},
                            group := o.node.group, markers := o.node.markers, log := o.node.log)
            && var v := o.node.group.value;
               if n.group.Some? then
                 var was := n.group.value;
                 v == was.(peers := was.peers + {m.peerId}, rings := v.rings)
               else v.id == m.groupId && v.peers == {m.peerId} && v.predecessors == {} == v.successors
  {
    hide LogMessage, MakeMarker;
  }

  /** Bytes of no known type, or too short for their type, are ignored; all others
      are handled as the message they spell. */
  lemma UnreadableIsIgnored(env: Env, n: Node, link: Link, w: Bytes, before: Port, st: Stamps)
    requires Parse(w, before).Success? ==> CanReceive(env, n, link, Parse(w, before).message, st)
    ensures w == [] || !(1 <= w[0] <= 6) || |w| < [1, 46, 87, 46, 1, 1, 41][w[0]] ==>
              ReceiveBytes(env, n, link, w, before, st) == Outcome(n, [])
    ensures w != [] && 1 <= w[0] <= 6 && |w| >= [1, 46, 87, 46, 1, 1, 41][w[0]] ==>
              && Parse(w, before).Success?
              && ReceiveBytes(env, n, link, w, before, st) == Receive(env, n, link, Parse(w, before).message, st)
  {
    hide Parse, Receive, CanReceive;
    WhatCanBeRead(w, before);
  }
}
