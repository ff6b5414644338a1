/** The Network object: the same events, carried out on its fields. */
module Networks {
  import opened Bytes
  import opened Rings
  import opened Groups
  import opened Messages
  import opened Logs
  import opened Nodes
  import opened Ledgers
  import Invariants

  class Network {
    const h: Hash
    const id: Id
    const pubKey: Bytes
    var state: PeerState
    var peers: map<Id, PeerState>
    var group: Group?
    var newPeers: map<Address, Pending>
    var joinToken: bool
    var markers: map<Bytes, Bytes>
    const logs: History
    var readyTimers: set<Id>
    var joinTimers: set<Id>

    ghost function Repr(): set<object>
      reads this
    {
      {this, logs} + if group == null then {} else group.Repr()
    }

    ghost predicate Valid()
      reads this, Repr()
    {
      group != null ==> group.Valid() && group.h == h && logs !in group.Repr() && this !in group.Repr()
    }

    ghost function E(): Env {
      Env(h, KeysOf(h))
    }

    /** The value this object holds. */
    ghost function Model(): Node
      requires Valid()
      reads Repr()
    {
      Node(id, pubKey, state, peers, if group == null then None else Some(group.Contents()), newPeers,
           joinToken, markers, logs.Contents(), readyTimers, joinTimers)
    }

    constructor (h: Hash, id: Id, pubKey: Bytes)
      ensures Valid() && fresh(Repr())
      ensures Model() == Node(id, pubKey, New, map[], None, map[], true, map[], EMPTY_LOG, {}, {})
      ensures this.h == h
    {
      this.h, this.id, this.pubKey := h, id, pubKey;
      state, peers, group, newPeers, joinToken := New, map[], null, map[], true;
      markers, readyTimers, joinTimers := map[], {}, {};
      logs := new History();
    }

    /** The senders we expect a new message from, each at zero. */
    method ExpectedSenders(m: Msg) returns (control: Control)
      requires Valid() && (m.IsBroadcast() ==> group != null)
      ensures control == Expected(Model(), m)
    {
      control := map[];
      if m.IsBroadcast() {
        var preds := group.predecessors;
        while preds != {}
          modifies {}
          invariant preds <= group.predecessors
          invariant control == Zeros(group.predecessors - preds)
          decreases preds
        {
          var p :| p in preds;
          control := control[p := 0];
          preds := preds - {p};
        }
        assert group.predecessors - preds == group.predecessors;
      }
    }

    /** File the message unless it is there already. */
    method FileMessage(m: Msg)
      requires Valid() && Stamped(m)
      requires m.IsBroadcast() && !Model().log.Logged(m.stamp) ==> Routable(Model(), m.marker)
      modifies logs
      ensures Valid() && Model() == Nodes.LogMessage(old(Model()), m, None)
    {
      hide Group.Contents, Group.Valid, Serialize, Stamped, Expected;
      var found := logs.Find(m);
      if !found {
        var control := ExpectedSenders(m);
        logs.Insert(m, control);
      }
    }

    method LogMessage(m: Msg, from: Option<Id>)
      requires Valid() && Stamped(m)
      requires m.IsBroadcast() && !Model().log.Logged(m.stamp) ==> Routable(Model(), m.marker)
      modifies logs
      ensures Valid() && Model() == Nodes.LogMessage(old(Model()), m, from)
    {
      hide Group.Contents, Group.Valid, Serialize, Stamped, Expected;
      ghost var n := Model();
      FileMessage(m);
      if from.Some? {
        logs.Modify(m.stamp, from.value);
        assert Model().log == Nodes.LogMessage(n, m, from).log;
      }
    }

    /** Write the message to every successor, then log it. */
    method Broadcast(m: Msg) returns (sends: seq<Sent>)
      requires Valid() && Stamped(m) && m.IsBroadcast() && Routable(Model(), m.marker)
      modifies logs
      ensures Valid() && Outcome(Model(), sends) == Nodes.Broadcast(old(Model()), m)
    {
      hide Group.Contents, Group.Valid, Serialize, Stamped;
      var to: set<Id>, succs := {}, group.successors;
      while succs != {}
        modifies {}
        invariant succs <= group.successors && to == group.successors - succs
        decreases succs
      {
        var q :| q in succs;
        to := to + {q};
        succs := succs - {q};
      }
      assert to == group.successors;
      sends := [Sent(m, to)];
      LogMessage(m, None);
    }

    method Send(m: Msg, to: set<Id>) returns (sends: seq<Sent>)
      requires Valid() && Stamped(m) && !m.IsBroadcast()
      modifies logs
      ensures Valid() && Outcome(Model(), sends) == Nodes.Send(old(Model()), m, to)
    {
      sends := [Sent(m, to)];
      LogMessage(m, None);
    }

    method AcknowledgeJoin(x: Id, asState: PeerState, ackStamp: Bytes) returns (sends: seq<Sent>)
      requires Valid() && group != null && |ackStamp| == MSG_STAMP_LENGTH
      modifies Repr()
      ensures Valid() && group == old(group)
      ensures Outcome(Model(), sends) == Nodes.AcknowledgeJoin(E(), old(Model()), x, asState, ackStamp)
    {
      hide Group.Contents, Group.Valid, Serialize, Stamped, View.AddPeer, View.UpdateNeighbours, Nodes.LogMessage;
      peers := peers[x := asState];
      group.AddPeer(x);
      group.UpdateNeighbours(id);
      sends := Send(JoinAck(ackStamp, group.id, id, pubKey), {x});
      if x !in group.predecessors && x !in group.successors {
        joinTimers := joinTimers + {x};
      }
    }

    method AnswerJoinRequest(a: Address, port: Port, st: Stamps) returns (sends: seq<Sent>)
      requires Valid() && HasOwnMarker(E(), Model()) && a in newPeers && StampsOk(st)
      modifies Repr()
      ensures Valid() && group == old(group)
      ensures Outcome(Model(), sends) == Nodes.AnswerJoin(E(), old(Model()), a, port, st)
    {
      hide Group.Contents, Group.Valid, Serialize, View.AddPeer, View.UpdateNeighbours, Nodes.LogMessage,
        Nodes.AcknowledgeJoin, MakeMarker;
      joinToken := false;
      var peer := newPeers[a];
      var notif := JoinNotif(st.first, MakeMarker(h, group.id, group.id), false, group.id,
                             peer.id, peer.pubKey, a, port);
      var told := Broadcast(notif);
      newPeers := newPeers - {a};
      var acked := AcknowledgeJoin(peer.id, peer.state, st.second);
      readyTimers := readyTimers + {peer.id};
      sends := told + acked;
    }

    /** The identified pending peer the map lists first, by walking the map. */
    method FindKnown() returns (a: Option<Address>)
      ensures a.None? <==> NobodyKnown(newPeers)
      ensures a.Some? ==> FirstKnown(newPeers, a.value)
    {
      var rest := newPeers.Keys;
      a := None;
      while rest != {}
        invariant rest <= newPeers.Keys
        invariant a.None? ==> forall b | b in newPeers.Keys - rest :: newPeers[b].state == New
        invariant a.Some? ==>
          && a.value in newPeers && newPeers[a.value].state != New
          && forall b | b in newPeers.Keys - rest && newPeers[b].state != New :: a.value == b || Less(a.value, b)
        decreases rest
      {
        var b :| b in rest;
        if newPeers[b].state != New {
          if a.Some? {
            LessTotal(a.value, b);
            if Less(b, a.value) {
              forall c | c in newPeers.Keys - rest && newPeers[c].state != New
                ensures b == c || Less(b, c)
              {
                if a.value != c {
                  LessTransitive(b, a.value, c);
                }
              }
              a := Some(b);
            }
          } else {
            a := Some(b);
          }
        }
        rest := rest - {b};
      }
    }

    method CheckForNewPeers(st: Stamps) returns (sends: seq<Sent>)
      requires Valid() && CanCheck(E(), Model()) && StampsOk(st)
      modifies Repr()
      ensures Valid() && group == old(group)
      ensures Outcome(Model(), sends) == Nodes.CheckForNewPeers(E(), old(Model()), st)
    {
      hide Group.Contents, Group.Valid, Serialize, Stamped, Nodes.AnswerJoin, MakeMarker;
      var a := FindKnown();
      if a.Some? {
        OneFirstKnown(newPeers);
        sends := AnswerJoinRequest(a.value, newPeers[a.value].port, st);
      } else {
        joinToken := true;
        sends := [];
      }
    }

    method CompleteJoin(x: Id, st: Stamps) returns (sends: seq<Sent>)
      requires Valid() && CanCheck(E(), Model()) && StampsOk(st)
      modifies Repr()
      ensures Valid() && group == old(group)
      ensures Outcome(Model(), sends) == Nodes.CompleteJoin(E(), old(Model()), x, st)
    {
      hide Group.Contents, Group.Valid, Nodes.CheckForNewPeers, Stamped, MakeMarker;
      if x in peers {
        peers := peers[x := Connected];
      }
      joinTimers := joinTimers - {x};
      sends := CheckForNewPeers(st);
    }

    method SendReady(x: Id, stamp: Bytes) returns (sends: seq<Sent>)
      requires Valid() && |stamp| == MSG_STAMP_LENGTH
      modifies this, logs
      ensures Valid() && group == old(group)
      ensures Outcome(Model(), sends) == Nodes.SendReady(old(Model()), x, stamp)
    {
      hide Group.Contents, Group.Valid, Nodes.LogMessage, Serialize;
      sends := Send(Ready(stamp), {x});
      readyTimers := readyTimers - {x};
    }

    method AddNewPeer(a: Address)
      requires Valid()
      modifies this
      ensures Valid() && group == old(group) && Model() == Accept(old(Model()), a)
    {
      newPeers := newPeers[a := Pending([], [], New, 0)];
    }

    method Join(entry: Address, port: Port, stamp: Bytes) returns (m: Msg)
      requires Valid() && |stamp| == MSG_STAMP_LENGTH
      modifies this, logs
      ensures Valid() && group == old(group)
      ensures (Model(), m) == CallEntryPoint(old(Model()), entry, port, stamp)
    {
      hide Group.Contents, Group.Valid, Nodes.LogMessage, Serialize;
      state := Joining;
      AddNewPeer(entry);
      m := Msg.Join(stamp, id, pubKey, port);
      LogMessage(m, None);
    }

    method BroadcastData(content: Bytes, stamp: Bytes) returns (sends: seq<Sent>)
      requires Valid() && HasOwnMarker(E(), Model()) && |stamp| == MSG_STAMP_LENGTH
      modifies logs
      ensures Valid()
      ensures Outcome(Model(), sends) == Nodes.BroadcastData(E(), old(Model()), content, stamp)
    {
      hide Group.Contents, Group.Valid, Nodes.LogMessage, Serialize;
      sends := Broadcast(Data(stamp, MakeMarker(h, group.id, group.id), content));
    }

    method RemoveMember(p: Id)
      requires Valid() && group != null && p in peers && p in group.peers
      modifies Repr()
      ensures Valid() && group == old(group)
      ensures var v := old(Model()).group.value.RemovePeer(KeysOf(h), p).RemovePeer(KeysOf(h), p);
              Model() == old(Model()).(peers := old(peers) - {p}, group := Some(v.UpdateNeighbours(KeysOf(h), id)))
    {
      hide Group.Contents, Group.Valid, View.RemovePeer, View.UpdateNeighbours, Serialize;
      peers := peers - {p};
      var mine := group.RemovePeer(p);
      if mine {
        // every group is visited again: there is this one
        var again := group.RemovePeer(p);
        group.UpdateNeighbours(id);
      }
    }

    /** The peer with this id, at this address, is gone. */
    method HandleDisconnect(p: Id, a: Address)
      requires Valid() && (p in peers ==> group != null && p in group.peers)
      modifies Repr()
      ensures Valid() && Repr() <= old(Repr())
      ensures Model() == Nodes.HandleDisconnect(E(), old(Model()), p, a)
    {
      hide Group.Contents, Group.Valid, View.RemovePeer, View.UpdateNeighbours, Serialize;
      if p in peers {
        RemoveMember(p);
      } else {
        newPeers := newPeers - {a};
      }
      if peers == map[] && newPeers == map[] {
        group := null;
        state := New;
      }
    }

    // ------------------------------------------------- incoming messages

    /** Found a group if there is none, note who asks, and log the request. */
    method HearRequest(a: Address, m: Msg, groupId: Bytes)
      requires Valid() && m.Join? && Stamped(m) && a in newPeers
      modifies Repr()
      ensures Valid() && fresh(Repr() - old(Repr()))
      ensures Model() == Invariants.Asked(E(), old(Model()), a, m, groupId)
    {
      hide Group.Contents, Group.Valid, Serialize, Nodes.LogMessage, View.AddToRings, MakeMarker, EmptyView, WithMarker,
        Stamped;
      if state != Connected {
        FoundGroup(groupId);
      }
      newPeers := newPeers[a := newPeers[a].(id := m.id, pubKey := m.pubKey, state := Joining)];
      LogMessage(m, Some(m.id));
    }

    method HandleJoin(link: Link, m: Msg, st: Stamps) returns (sends: seq<Sent>)
      requires Valid() && m.Join? && Stamped(m) && StampsOk(st)
      requires CanProcess(E(), Model(), link, m, st)
      modifies Repr()
      ensures Valid() && fresh(Repr() - old(Repr()))
      ensures Outcome(Model(), sends) == Process(E(), old(Model()), link, m, st)
    {
      hide Group.Contents, Group.Valid, Invariants.Asked, Process, Nodes.AnswerJoin, HasOwnMarker;
      var a := link.address;
      Invariants.RequestIs(E(), Model(), a, m, st);
      HearRequest(a, m, st.groupId);
      if joinToken {
        sends := AnswerJoinRequest(a, m.port, st);
      } else {
        newPeers := newPeers[a := newPeers[a].(port := m.port)];
        sends := [];
      }
    }

    method CreateGroup(groupId: Bytes)
      requires Valid()
      modifies this
      ensures Valid() && fresh(Repr() - old(Repr())) && group != null && fresh(group.Repr()) && group.id == groupId
      ensures Model() == old(Model()).(group := Some(EmptyView(groupId)))
    {
      group := new Group(h, groupId);
    }

    /** channel_markers.insert, which leaves an existing entry alone. */
    method InsertMarker(groupId: Bytes)
      requires Valid()
      modifies this`markers
      ensures Valid()
      ensures Model() == old(Model()).(markers := WithMarker(E(), old(markers), groupId))
    {
      hide Group.Contents, Group.Valid, MakeMarker;
      var marker := MakeMarker(h, groupId, groupId);
      if marker !in markers {
        markers := markers[marker := groupId];
      }
    }

    /** A node outside any group starts one, with itself as the first member. */
    method FoundGroup(groupId: Bytes)
      requires Valid()
      modifies this
      ensures Valid() && fresh(Repr() - old(Repr())) && Model() == Found(E(), old(Model()), groupId)
      ensures group != null && fresh(group.Repr()) && group.id == groupId
    {
      hide Group.Contents, Group.Valid, View.AddToRings, MakeMarker, EmptyView, WithMarker;
      state := Connected;
      CreateGroup(groupId);
      InsertMarker(groupId);
      group.AddToRings(id);
    }

    method HandleJoinNotif(link: Link, m: Msg, st: Stamps) returns (sends: seq<Sent>)
      requires Valid() && m.JoinNotif? && StampsOk(st) && LinkOk(Model(), link)
      requires CanProcess(E(), Model(), link, m, st)
      modifies Repr()
      ensures Valid() && fresh(Repr() - old(Repr()))
      ensures Outcome(Model(), sends) == Process(E(), old(Model()), link, m, st)
    {
      hide Group.Contents, Group.Valid, Serialize, Nodes.AcknowledgeJoin, MakeMarker;
      sends := [];
      if group != null && m.groupId == group.id && !m.channel {
        joinToken := false;
        sends := AcknowledgeJoin(m.peerId, Joining, st.first);
      }
    }

    /** Create the group unless there is one. */
    method KnowGroup(groupId: Bytes)
      requires Valid()
      modifies this
      ensures Valid() && fresh(Repr() - old(Repr())) && group != null
      ensures var n := old(Model());
              Model() == if n.group.Some? then n
                         else n.(group := Some(EmptyView(groupId)), markers := WithMarker(E(), n.markers, groupId))
    {
      hide Group.Contents, Group.Valid, EmptyView, WithMarker;
      if group == null {
        CreateGroup(groupId);
        InsertMarker(groupId);
      }
    }

    /** The sender leaves the pending peers for the members. */
    method FileSender(a: Address, p: Id)
      requires Valid() && group != null
      modifies Repr()
      ensures Valid() && group == old(group)
      ensures var n := old(Model());
              Model() == n.(newPeers := n.newPeers - {a}, peers := n.peers[p := Connected],
                            group := Some(n.group.value.AddPeer(KeysOf(h), p)))
    {
      hide Group.Contents, Group.Valid, View.AddPeer;
      newPeers := newPeers - {a};
      peers := peers[p := Connected];
      group.AddPeer(p);
    }

    method HandleJoinAck(link: Link, m: Msg, st: Stamps) returns (sends: seq<Sent>)
      requires Valid() && m.JoinAck? && Stamped(m)
      requires CanProcess(E(), Model(), link, m, st)
      modifies Repr()
      ensures Valid() && fresh(Repr() - old(Repr()))
      ensures Outcome(Model(), sends) == Process(E(), old(Model()), link, m, st)
    {
      hide Group.Contents, Group.Valid, Serialize, Nodes.LogMessage, View.AddPeer, MakeMarker, EmptyView, WithMarker;
      KnowGroup(m.groupId);
      FileSender(link.address, m.peerId);
      LogMessage(m, Some(m.peerId));
      sends := [];
    }

    method HandleReady(link: Link, m: Msg, st: Stamps) returns (sends: seq<Sent>)
      requires Valid() && m.Ready? && StampsOk(st)
      requires CanProcess(E(), Model(), link, m, st)
      modifies Repr()
      ensures Valid() && fresh(Repr() - old(Repr()))
      ensures Outcome(Model(), sends) == Process(E(), old(Model()), link, m, st)
    {
      hide Group.Contents, Group.Valid, Serialize, Nodes.LogMessage, View.AddToRings, View.UpdateNeighbours;
      sends := [];
      if group != null && state != Connected {
        state := Connected;
        group.AddToRings(id);
        group.UpdateNeighbours(id);
        sends := Send(Msg.ReadyNotif(st.first), group.predecessors + group.successors);
      }
    }

    method HandleReadyNotif(link: Link, m: Msg, st: Stamps) returns (sends: seq<Sent>)
      requires Valid() && m.ReadyNotif? && StampsOk(st) && LinkOk(Model(), link)
      requires CanProcess(E(), Model(), link, m, st)
      modifies Repr()
      ensures Valid() && fresh(Repr() - old(Repr()))
      ensures Outcome(Model(), sends) == Process(E(), old(Model()), link, m, st)
    {
      hide Group.Contents, Group.Valid, Serialize, Nodes.CheckForNewPeers, MakeMarker;
      match link {
        case Member(p) => peers := peers[p := Connected];
        case Unsorted(a) => newPeers := newPeers[a := newPeers[a].(state := Connected)];
      }
      sends := CheckForNewPeers(st);
    }

    method ProcessMessage(link: Link, m: Msg, st: Stamps) returns (sends: seq<Sent>)
      requires Valid() && Stamped(m) && StampsOk(st)
      requires CanProcess(E(), Model(), link, m, st)
      modifies Repr()
      ensures Valid() && fresh(Repr() - old(Repr()))
      ensures Outcome(Model(), sends) == Process(E(), old(Model()), link, m, st)
    {
      match m
      case Join(_, _, _, _) => sends := HandleJoin(link, m, st);
      case JoinNotif(_, _, _, _, _, _, _, _) => sends := HandleJoinNotif(link, m, st);
      case JoinAck(_, _, _, _) => sends := HandleJoinAck(link, m, st);
      case Ready(_) => sends := HandleReady(link, m, st);
      case ReadyNotif(_) => sends := HandleReadyNotif(link, m, st);
      case Data(_, _, _) => sends := [];
    }

    method IsKnown(link: Link) returns (known: bool)
      requires Valid() && LinkOk(Model(), link)
      ensures known == Known(Model(), link)
    {
      match link {
        case Member(p) => known := peers[p] != New;
        case Unsorted(a) => known := newPeers[a].state != New;
      }
    }

    method IdOf(link: Link) returns (p: Id)
      requires Valid() && LinkOk(Model(), link)
      ensures p == EmitterId(Model(), link)
    {
      match link {
        case Member(q) => p := q;
        case Unsorted(a) => p := newPeers[a].id;
      }
    }

    /** Log a new message if its emitter is known, and pass it on. */
    method Relay(link: Link, m: Msg) returns (sends: seq<Sent>)
      requires Valid() && Stamped(m) && LinkOk(Model(), link) && CanRoute(Model(), link, m)
      modifies logs
      ensures Valid()
      ensures Outcome(Model(), sends) == Nodes.Relay(old(Model()), link, m)
    {
      hide Group.Contents, Group.Valid, Serialize, Nodes.LogMessage, Stamped;
      var known := IsKnown(link);
      if known {
        var p := IdOf(link);
        LogMessage(m, Some(p));
      }
      sends := [];
      if m.IsBroadcast() && m.marker in markers {
        sends := Broadcast(m);
      }
    }

    /** A message not in the log: relay it, then process it. */
    method HandleNew(link: Link, m: Msg, st: Stamps) returns (sends: seq<Sent>)
      requires Valid() && StampsOk(st) && Stamped(m) && !Model().log.Logged(m.stamp)
      requires CanReceive(E(), Model(), link, m, st)
      modifies Repr()
      ensures Valid() && fresh(Repr() - old(Repr()))
      ensures Outcome(Model(), sends) == Receive(E(), old(Model()), link, m, st)
    {
      hide Group.Contents, Group.Valid, Serialize, Nodes.Relay, Process, CanProcess, Stamped, Nodes.LogMessage;
      ghost var n := Model();
      var told := Relay(link, m);
      LogIsIrrelevant(E(), n, Model().log, link, m, st);
      var done := ProcessMessage(link, m, st);
      sends := told + done;
    }

    /** Sent or received before, and then only acknowledged; or new. */
    method HandleParsed(link: Link, m: Msg, st: Stamps) returns (sends: seq<Sent>)
      requires Valid() && StampsOk(st) && Stamped(m) && CanReceive(E(), Model(), link, m, st)
      modifies Repr()
      ensures Valid() && fresh(Repr() - old(Repr()))
      ensures Outcome(Model(), sends) == Receive(E(), old(Model()), link, m, st)
    {
      hide Group.Contents, Group.Valid, Serialize, Nodes.Relay, Process, CanProcess, Stamped;
      var found := logs.Find(m);
      if found {
        var p := IdOf(link);
        logs.Modify(m.stamp, p);
        sends := [];
      } else {
        sends := HandleNew(link, m, st);
      }
    }

    /** handle_incoming_message, when bytes have arrived. Whatever universe of
        ids the node's invariant holds over, it holds over it afterwards. */
    method HandleIncomingMessage(link: Link, received: Bytes, before: Port, st: Stamps) returns (sends: seq<Sent>)
      requires Valid() && StampsOk(st) && LinkOk(Model(), link)
      requires var p := Parse(received, before); p.Success? ==> CanReceive(E(), Model(), link, p.message, st)
      modifies Repr()
      ensures Valid() && fresh(Repr() - old(Repr()))
      ensures Outcome(Model(), sends) == ReceiveBytes(E(), old(Model()), link, received, before, st)
      ensures forall ids | old(MayReceive(E(), ids, Model(), link, received, before, st)) ::
        Invariants.Invariant(E(), ids, Model())
    {
      hide Group.Contents, Group.Valid, Parse, MayReceive, Invariants.Invariant, Receive, CanReceive;
      ghost var n := Model();
      sends := [];
      var parsed := ParseMessage(received, before);
      if parsed.Success? {
        ParsedIsStamped(received, before);
        sends := HandleParsed(link, parsed.message, st);
      }
      InvariantStays(E(), n, link, received, before, st);
    }
  }

  ghost predicate MayReceive(env: Env, ids: set<Id>, n: Node, link: Link, received: Bytes, before: Port, st: Stamps) {
    && Invariants.Invariant(env, ids, n)
    && Invariants.Allowed(env, ids, n, Invariants.Receives(link, received, before, st))
  }

  lemma InvariantStays(env: Env, n: Node, link: Link, received: Bytes, before: Port, st: Stamps)
    requires Parse(received, before).Success? ==> CanReceive(env, n, link, Parse(received, before).message, st)
    ensures forall ids | MayReceive(env, ids, n, link, received, before, st) ::
      Invariants.Invariant(env, ids, ReceiveBytes(env, n, link, received, before, st).node)
  {
    hide Invariants.Invariant, ReceiveBytes, CanReceive, Parse;
    forall ids | MayReceive(env, ids, n, link, received, before, st)
      ensures Invariants.Invariant(env, ids, ReceiveBytes(env, n, link, received, before, st).node)
    {
      Invariants.EventKeeps(env, ids, n, Invariants.Receives(link, received, before, st));
    }
  }
}
