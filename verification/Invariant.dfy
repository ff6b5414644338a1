/** What every event keeps at one node, over every run. */
module Invariants {
  import opened Bytes
  import opened Rings
  import opened Groups
  import opened Messages
  import opened Logs
  import opened Nodes
  import opened Ledgers

  // ------------------------------------------------------ event by event

  /** Tables, rings and cache together. */
  ghost predicate Coherent(env: Env, n: Node) {
    Consistent(env, n) && CacheRight(env, n)
  }

  lemma AcknowledgeKeeps(env: Env, n: Node, x: Id, asState: PeerState, stamp: Bytes)
    requires n.group.Some? && Consistent(env, n) && x != n.id
    requires KeysDistinct(env.key, OnRings(n) + {x, n.id})
    ensures var o := AcknowledgeJoin(env, n, x, asState, stamp);
            && o.node.peers == n.peers[x := asState]
            && o.node.state == n.state && o.node.id == n.id && o.node.newPeers == n.newPeers
            && o.node.pubKey == n.pubKey && o.node.group.Some? && o.node.group.value.id == n.group.value.id
            && Coherent(env, o.node)
  {
    hide View.AddPeer, View.UpdateNeighbours, RingsHold, CacheExact, KeysDistinct, LogMessage, MakeMarker;
    TakeIn(env.key, n.group.value, OnRings(n), x, n.id);
    assert OnRings(n.(peers := n.peers[x := asState])) == OnRings(n) + {x};
  }

  lemma AnswerKeeps(env: Env, n: Node, a: Address, port: Port, st: Stamps)
    requires Consistent(env, n) && HasOwnMarker(env, n) && a in n.newPeers
    requires n.newPeers[a].id != n.id && KeysDistinct(env.key, OnRings(n) + {n.newPeers[a].id, n.id})
    ensures var o := AnswerJoin(env, n, a, port, st);
            && o.node.peers == n.peers[n.newPeers[a].id := n.newPeers[a].state]
            && o.node.state == n.state && o.node.id == n.id && o.node.newPeers == n.newPeers - {a}
            && o.node.pubKey == n.pubKey && o.node.group.Some? && o.node.group.value.id == n.group.value.id
            && Coherent(env, o.node)
  {
    hide RingsHold, CacheExact, KeysDistinct, Serialize, MakeMarker, AcknowledgeJoin;
    var gid, x := n.group.value.id, n.newPeers[a];
    var notif := JoinNotif(st.first, MakeMarker(env.h, gid, gid), false, gid, x.id, x.pubKey, a, port);
    var told := Broadcast(n.(joinToken := false), notif).node;
    AcknowledgeKeeps(env, told.(newPeers := told.newPeers - {a}), x.id, x.state, st.second);
  }

  lemma FoundKeeps(env: Env, n: Node, groupId: Bytes)
    requires Consistent(env, n) && n.state != Connected && n.peers == map[] && MarkerFree(env, n, groupId)
    requires KeysDistinct(env.key, {n.id})
    ensures Coherent(env, Found(env, n, groupId))
  {
    hide View.AddToRings, RingsHold, CacheExact, KeysDistinct, MakeMarker;
    EmptyViewHolds(env.key, groupId);
    assert {} + {n.id} == {n.id};
    TakeFirstPlace(env.key, groupId, n.id);
    assert OnRings(Found(env, n, groupId)) == {n.id};
  }

  lemma TakeFirstPlace(key: RingKeys, groupId: Bytes, local: Id)
    requires KeysDistinct(key, {local})
    ensures var v := EmptyView(groupId).AddToRings(key, local);
            && v.id == groupId && v.peers == {} && RingsHold(key, v, {local}) && CacheExact(key, v, {local}, local)
  {
    EmptyViewHolds(key, groupId);
    assert {} + {local} == {local};
    AddKeepsRings(key, EmptyView(groupId), {}, local);
    NobodyNext(key, {local}, local);
  }

  // ------------------------------------------------- whole invariants

  /** An id and a key as they fit the wire. */
  predicate Sized(id: Id, pubKey: Bytes) {
    |id| == ID_LENGTH && |pubKey| == KEY_LENGTH
  }

  /** Every id this node has to do with is in a universe of ids whose ring keys
      are distinct, and its own is nobody else's. */
  ghost predicate Placed(env: Env, ids: set<Id>, n: Node) {
    && KeysDistinct(env.key, ids) && n.id in ids && n.peers.Keys <= ids
    && forall a | a in n.newPeers && n.newPeers[a].state != New :: Stranger(ids, n, n.newPeers[a].id)
  }

  /** Somebody else, from the universe. */
  ghost predicate Stranger(ids: set<Id>, n: Node, x: Id) {
    x in ids && x != n.id
  }

  ghost predicate Newcomer(ids: set<Id>, n: Node, x: Id, pubKey: Bytes) {
    Stranger(ids, n, x) && Sized(x, pubKey)
  }

  /** And what it may have to write fits the wire. */
  ghost predicate Tidy(env: Env, ids: set<Id>, n: Node) {
    && Placed(env, ids, n) && Fits(n)
    && forall a | a in n.newPeers ::
      COLON !in a && (n.newPeers[a].state != New ==> Sized(n.newPeers[a].id, n.newPeers[a].pubKey))
  }

  ghost predicate Invariant(env: Env, ids: set<Id>, n: Node) {
    Coherent(env, n) && Tidy(env, ids, n) && Sound(n.log)
  }

  datatype Event =
    | Accepts(address: Address)
    | Calls(entry: Address, port: Port, stamp: Bytes)
    | Sends(content: Bytes, stamp: Bytes)
    | Receives(link: Link, bytes: Bytes, before: Port, stamps: Stamps)
    | ReadyExpires(peer: Id, stamp: Bytes)
    | JoinExpires(peer: Id, stamps: Stamps)
    | Loses(peer: Id, address: Address)

  /** What is assumed of an incoming message beyond what the code needs not to
      fail: ids are not shared, a node with peers that is not connected is not
      made to found a group that leaves one out, JOIN_ACK arrives only before
      READY, and READY_NOTIF comes from somebody identified. That none of this
      can be spared is in Limits. */
  ghost predicate Plausible(env: Env, ids: set<Id>, n: Node, link: Link, m: Msg) {
    match m
    case Join(_, id, pubKey, _) => Newcomer(ids, n, id, pubKey) && (n.state == Connected || CanFound(n, id))
    case JoinNotif(_, _, _, _, peerId, pubKey, _, _) => Newcomer(ids, n, peerId, pubKey)
    case JoinAck(_, groupId, peerId, pubKey) =>
      && Newcomer(ids, n, peerId, pubKey) && n.state != Connected && |groupId| == GROUP_ID_LENGTH
      && (n.group.None? ==> MarkerFree(env, n, groupId))
    case ReadyNotif(_) => LinkOk(n, link) && Known(n, link)
    case _ => true
  }

  /** Nobody would be left out of a group founded for x: there is nobody, or
      only x, who is answered at once. */
  predicate CanFound(n: Node, x: Id) {
    n.peers == map[] || (n.joinToken && n.peers.Keys == {x})
  }

  /** What an event needs so as not to fail. */
  ghost predicate Possible(env: Env, n: Node, ev: Event) {
    match ev
    case Sends(_, _) => HasOwnMarker(env, n)
    case Receives(link, w, before, st) =>
      LinkOk(n, link) &&
      (Parse(w, before).Success? ==> CanReceive(env, n, link, Parse(w, before).message, st))
    case JoinExpires(_, _) => CanCheck(env, n)
    case Loses(p, _) => p in n.peers ==> n.group.Some?
    case _ => true
  }

  /** And what it needs to keep the node's tables and log as they should be. */
  ghost predicate Allowed(env: Env, ids: set<Id>, n: Node, ev: Event) {
    && Possible(env, n, ev)
    && match ev
       case Accepts(a) => COLON !in a
       case Calls(entry, _, stamp) => COLON !in entry && |stamp| == MSG_STAMP_LENGTH && n.state != Connected
       case Sends(_, stamp) => |stamp| == MSG_STAMP_LENGTH
       case Receives(link, w, before, st) =>
         StampsOk(st) && (Parse(w, before).Success? ==>
           var m := Parse(w, before).message;
           !n.log.Logged(m.stamp) ==> Plausible(env, ids, n, link, m))
       case ReadyExpires(_, stamp) => |stamp| == MSG_STAMP_LENGTH
       case JoinExpires(_, st) => StampsOk(st)
       case Loses(_, _) => true
  }

  ghost function After(env: Env, n: Node, ev: Event): Node
    requires Possible(env, n, ev)
  {
    match ev
    case Accepts(a) => Accept(n, a)
    case Calls(entry, port, stamp) => CallEntryPoint(n, entry, port, stamp).0
    case Sends(content, stamp) => BroadcastData(env, n, content, stamp).node
    case Receives(link, w, before, st) => ReceiveBytes(env, n, link, w, before, st).node
    case ReadyExpires(x, stamp) => SendReady(n, x, stamp).node
    case JoinExpires(x, st) => CompleteJoin(env, n, x, st).node
    case Loses(p, a) => HandleDisconnect(env, n, p, a)
  }

  lemma ReadyKeeps(env: Env, n: Node, st: Stamps)
    requires n.group.Some? && Consistent(env, n) && n.state != Connected
    requires KeysDistinct(env.key, OnRings(n) + {n.id})
    ensures var v := n.group.value.AddToRings(env.key, n.id).UpdateNeighbours(env.key, n.id);
            Coherent(env, n.(state := Connected, group := Some(v))) && v.id == n.group.value.id
  {
    hide View.AddToRings, View.UpdateNeighbours, RingsHold, CacheExact, KeysDistinct, MakeMarker;
    TakePlace(env.key, n.group.value, OnRings(n), n.id);
    assert OnRings(n.(state := Connected)) == OnRings(n) + {n.id};
  }

  lemma JoinAckKeeps(env: Env, n: Node, p: Id)
    requires n.group.Some? && Coherent(env, n) && n.state != Connected && p != n.id
    requires KeysDistinct(env.key, OnRings(n) + {p})
    ensures Coherent(env, n.(peers := n.peers[p := Connected], group := Some(n.group.value.AddPeer(env.key, p))))
  {
    hide View.AddPeer, RingsHold, CacheExact, KeysDistinct, MakeMarker;
    TakeInOnly(env.key, n.group.value, OnRings(n), p);
    assert OnRings(n.(peers := n.peers[p := Connected])) == OnRings(n) + {p};
    OffRing(env.key, OnRings(n), n.id);
    OffRing(env.key, OnRings(n) + {p}, n.id);
  }

  lemma OffRing(key: RingKeys, members: set<Id>, local: Id)
    requires local !in members
    ensures Succs(key, members, local) == {} && Preds(key, members, local) == {}
    ensures forall v :: CacheExact(key, v, members, local) <==> v.successors == {} && v.predecessors == {}
  {
    NobodyNext(key, members, local);
  }

  lemma DisconnectKeeps(env: Env, n: Node, p: Id, a: Address)
    requires Coherent(env, n) && KeysDistinct(env.key, n.peers.Keys + {n.id})
    ensures Coherent(env, HandleDisconnect(env, n, p, a))
  {
    hide View.RemovePeer, View.UpdateNeighbours, RingsHold, CacheExact, KeysDistinct, MakeMarker;
    if p in n.peers {
      FewerKeysDistinct(env.key, OnRings(n) + {p, n.id}, n.peers.Keys + {n.id});
      DropOut(env.key, n.group.value, OnRings(n), p, n.id);
      assert OnRings(n.(peers := n.peers - {p})) == OnRings(n) - {p};
    }
  }

  // -------------------------------------------- messages, type by type

  lemma AnswerKeepsPlaced(env: Env, ids: set<Id>, n: Node, a: Address, port: Port, st: Stamps)
    requires Coherent(env, n) && Placed(env, ids, n) && HasOwnMarker(env, n)
    requires a in n.newPeers && n.newPeers[a].state != New
    ensures var o := AnswerJoin(env, n, a, port, st);
            Coherent(env, o.node) && Placed(env, ids, o.node) && (Tidy(env, ids, n) ==> Tidy(env, ids, o.node))
  {
    hide RingsHold, CacheExact, KeysDistinct, AnswerJoin, MakeMarker, Consistent;
    FewerKeysDistinct(env.key, OnRings(n) + {n.newPeers[a].id, n.id}, ids);
    AnswerKeeps(env, n, a, port, st);
  }

  lemma CheckKeepsPlaced(env: Env, ids: set<Id>, n: Node, st: Stamps)
    requires Coherent(env, n) && Placed(env, ids, n) && CanCheck(env, n)
    ensures var o := CheckForNewPeers(env, n, st);
            Coherent(env, o.node) && Placed(env, ids, o.node) && (Tidy(env, ids, n) ==> Tidy(env, ids, o.node))
  {
    hide AnswerJoin, MakeMarker, RingsHold, CacheExact, KeysDistinct;
    forall a | FirstKnown(n.newPeers, a)
      ensures var o := AnswerJoin(env, n, a, n.newPeers[a].port, st);
              Coherent(env, o.node) && Placed(env, ids, o.node) && (Tidy(env, ids, n) ==> Tidy(env, ids, o.node))
    {
      AnswerKeepsPlaced(env, ids, n, a, n.newPeers[a].port, st);
    }
  }

  /** Founding a group for x when x is the only peer: the answer takes x in. */
  lemma FoundingForOne(env: Env, n: Node, a: Address, port: Port, st: Stamps)
    requires n.group.Some? && n.state == Connected && n.group.value.peers == {}
    requires RingsHold(env.key, n.group.value, {n.id}) && HasOwnMarker(env, n)
    requires a in n.newPeers && n.peers.Keys == {n.newPeers[a].id} && n.newPeers[a].id != n.id
    requires KeysDistinct(env.key, {n.newPeers[a].id, n.id})
    ensures var o := AnswerJoin(env, n, a, port, st);
            && o.node.peers == n.peers[n.newPeers[a].id := n.newPeers[a].state] && o.node.newPeers == n.newPeers - {a}
            && o.node.id == n.id && o.node.pubKey == n.pubKey && o.node.group.Some?
            && o.node.group.value.id == n.group.value.id && Coherent(env, o.node)
  {
    var lone := n.(peers := map[]);
    LoneIsConsistent(env, lone);
    AnswerKeeps(env, lone, a, port, st) by {
      assert OnRings(lone) + {n.newPeers[a].id, n.id} == {n.newPeers[a].id, n.id};
    }
    AnswerForgets(env, n, a, port, st);
  }

  lemma LoneIsConsistent(env: Env, n: Node)
    requires n.group.Some? && n.state == Connected && n.group.value.peers == {} && n.peers == map[]
    requires RingsHold(env.key, n.group.value, {n.id}) && HasOwnMarker(env, n)
    ensures Consistent(env, n)
  {
    hide RingsHold, MakeMarker;
    assert OnRings(n) == {n.id};
  }

  /** The answer overwrites what was known of the peer it answers. */
  lemma AnswerForgets(env: Env, n: Node, a: Address, port: Port, st: Stamps)
    requires HasOwnMarker(env, n) && a in n.newPeers && n.peers.Keys == {n.newPeers[a].id}
    ensures AnswerJoin(env, n, a, port, st) == AnswerJoin(env, n.(peers := map[]), a, port, st)
  {
    hide Serialize, MakeMarker, View.AddPeer, View.UpdateNeighbours, LogMessage, AcknowledgeJoin;
    var lone, gid, x := n.(peers := map[]), n.group.value.id, n.newPeers[a];
    var notif := JoinNotif(st.first, MakeMarker(env.h, gid, gid), false, gid, x.id, x.pubKey, a, port);
    PeersDoNotLog(n.(joinToken := false), notif);
    var told := Broadcast(n.(joinToken := false), notif).node;
    AcknowledgeForgets(env, told.(newPeers := told.newPeers - {a}), x.id, x.state, st.second);
  }

  lemma PeersDoNotLog(n: Node, m: Msg)
    requires m.IsBroadcast() && !n.log.Logged(m.stamp) ==> Routable(n, m.marker)
    ensures LogMessage(n.(peers := map[]), m, None) == LogMessage(n, m, None).(peers := map[])
  {
    hide Serialize;
  }

  lemma AcknowledgeForgets(env: Env, n: Node, x: Id, asState: PeerState, stamp: Bytes)
    requires n.group.Some? && n.peers.Keys == {x}
    ensures AcknowledgeJoin(env, n, x, asState, stamp) == AcknowledgeJoin(env, n.(peers := map[]), x, asState, stamp)
  {
    hide Serialize, View.AddPeer, View.UpdateNeighbours, LogMessage;
    var none: map<Id, PeerState> := map[];
    assert n.peers[x := asState] == none[x := asState];
  }

  /** The node once it knows who asks to join. */
  function Asked(env: Env, n: Node, a: Address, m: Msg, groupId: Bytes): Node
    requires a in n.newPeers && m.Join?
  {
    var up := if n.state != Connected then Found(env, n, groupId) else n;
    LogMessage(up.(newPeers := up.newPeers[a := up.newPeers[a].(id := m.id, pubKey := m.pubKey, state := Joining)]),
               m, Some(m.id))
  }

  lemma AskedIs(env: Env, n: Node, a: Address, m: Msg, groupId: Bytes)
    requires a in n.newPeers && m.Join?
    ensures var up := if n.state != Connected then Found(env, n, groupId) else n;
            var asked := Asked(env, n, a, m, groupId);
            asked == up.(log := asked.log,
                         newPeers := n.newPeers[a := n.newPeers[a].(id := m.id, pubKey := m.pubKey, state := Joining)])
  {
    hide LogMessage, View.AddToRings;
  }

  /** What a request comes to: an answer, or a place in the queue. */
  lemma RequestIs(env: Env, n: Node, a: Address, m: Msg, st: Stamps)
    requires m.Join? && CanProcess(env, n, Unsorted(a), m, st)
    ensures var g := Asked(env, n, a, m, st.groupId);
            && HasOwnMarker(env, g) && a in g.newPeers
            && Process(env, n, Unsorted(a), m, st)
               == if g.joinToken then AnswerJoin(env, g, a, m.port, st)
                  else Outcome(g.(newPeers := g.newPeers[a := g.newPeers[a].(port := m.port)]), [])
  {
    hide LogMessage, MakeMarker, AnswerJoin, View.AddToRings;
    IdKept(env.key, EmptyView(st.groupId), n.id, n.id);
  }

  lemma AskedKeeps(env: Env, ids: set<Id>, n: Node, a: Address, m: Msg, st: Stamps)
    requires Coherent(env, n) && Tidy(env, ids, n) && m.Join? && a in n.newPeers && Newcomer(ids, n, m.id, m.pubKey)
    requires n.state != Connected ==> MarkerFree(env, n, st.groupId) && |st.groupId| == GROUP_ID_LENGTH
    ensures Tidy(env, ids, Asked(env, n, a, m, st.groupId)) && HasOwnMarker(env, Asked(env, n, a, m, st.groupId))
    ensures n.state == Connected || n.peers == map[] ==> Coherent(env, Asked(env, n, a, m, st.groupId))
    ensures n.state != Connected ==>
      var g := Asked(env, n, a, m, st.groupId);
      g.state == Connected && g.group.value.peers == {} && RingsHold(env.key, g.group.value, {n.id})
  {
    hide RingsHold, CacheExact, KeysDistinct, MakeMarker, Asked, View.AddToRings;
    AskedIs(env, n, a, m, st.groupId);
    var g := Asked(env, n, a, m, st.groupId);
    IdKept(env.key, EmptyView(st.groupId), n.id, n.id);
    FewerKeysDistinct(env.key, {n.id}, ids);
    if n.state != Connected {
      TakeFirstPlace(env.key, st.groupId, n.id);
    }
    if n.state != Connected && n.peers == map[] {
      FoundKeeps(env, n, st.groupId);
      assert OnRings(g) == OnRings(Found(env, n, st.groupId));
    } else if n.state == Connected {
      assert OnRings(g) == OnRings(n);
    }
  }

  lemma JoinKeeps(env: Env, ids: set<Id>, n: Node, link: Link, m: Msg, st: Stamps)
    requires Coherent(env, n) && Tidy(env, ids, n) && m.Join?
    requires CanProcess(env, n, link, m, st) && Plausible(env, ids, n, link, m) && StampsOk(st)
    ensures var o := Process(env, n, link, m, st); Coherent(env, o.node) && Tidy(env, ids, o.node)
  {
    hide RingsHold, CacheExact, KeysDistinct, AnswerJoin, MakeMarker, LogMessage, View.AddToRings;
    var a := link.address;
    var g := Asked(env, n, a, m, st.groupId);
    AskedKeeps(env, ids, n, a, m, st);
    AskedIs(env, n, a, m, st.groupId);
    if n.state != Connected && n.peers != map[] {
      FewerKeysDistinct(env.key, {m.id, n.id}, ids);
      FoundingForOne(env, g, a, m.port, st);
    } else if g.joinToken {
      AnswerKeepsPlaced(env, ids, g, a, m.port, st);
    } else {
      var queued := g.(newPeers := g.newPeers[a := g.newPeers[a].(port := m.port)]);
      assert OnRings(queued) == OnRings(g);
    }
  }

  lemma NotifKeeps(env: Env, ids: set<Id>, n: Node, link: Link, m: Msg, st: Stamps)
    requires Coherent(env, n) && Tidy(env, ids, n) && m.JoinNotif?
    requires CanProcess(env, n, link, m, st) && Plausible(env, ids, n, link, m)
    ensures var o := Process(env, n, link, m, st); Coherent(env, o.node) && Tidy(env, ids, o.node)
  {
    hide RingsHold, CacheExact, KeysDistinct, AcknowledgeJoin, MakeMarker;
    if Admits(n, m) {
      FewerKeysDistinct(env.key, OnRings(n) + {m.peerId, n.id}, ids);
      AcknowledgeKeeps(env, n.(joinToken := false), m.peerId, Joining, st.first);
    }
  }

  lemma AckKeeps(env: Env, ids: set<Id>, n: Node, link: Link, m: Msg, st: Stamps)
    requires Coherent(env, n) && Tidy(env, ids, n) && m.JoinAck?
    requires CanProcess(env, n, link, m, st) && Plausible(env, ids, n, link, m)
    ensures var o := Process(env, n, link, m, st); Coherent(env, o.node) && Tidy(env, ids, o.node)
  {
    hide RingsHold, CacheExact, KeysDistinct, View.AddPeer, MakeMarker, LogMessage;
    var based :=
      if n.group.Some? then n
      else n.(group := Some(EmptyView(m.groupId)),
              markers := WithMarker(env, n.markers, m.groupId));
    if n.group.None? {
      EmptyViewHolds(env.key, m.groupId);
      OffRing(env.key, {}, n.id);
      assert OnRings(based) == {};
    }
    FewerKeysDistinct(env.key, OnRings(based) + {m.peerId}, ids);
    TakeInOnly(env.key, based.group.value, OnRings(based), m.peerId) by {
      assert Consistent(env, based);
    }
    JoinAckKeeps(env, based, m.peerId);
  }

  lemma ProcessKeeps(env: Env, ids: set<Id>, n: Node, link: Link, m: Msg, st: Stamps)
    requires Coherent(env, n) && Tidy(env, ids, n) && StampsOk(st)
    requires CanProcess(env, n, link, m, st) && Plausible(env, ids, n, link, m)
    ensures var o := Process(env, n, link, m, st); Coherent(env, o.node) && Tidy(env, ids, o.node)
  {
    if m.Join? {
      JoinKeeps(env, ids, n, link, m, st);
    } else if m.JoinNotif? {
      NotifKeeps(env, ids, n, link, m, st);
    } else if m.JoinAck? {
      AckKeeps(env, ids, n, link, m, st);
    } else {
      SignalKeeps(env, ids, n, link, m, st);
    }
  }

  lemma SignalKeeps(env: Env, ids: set<Id>, n: Node, link: Link, m: Msg, st: Stamps)
    requires Coherent(env, n) && Tidy(env, ids, n) && (m.Ready? || m.ReadyNotif? || m.Data?)
    requires CanProcess(env, n, link, m, st) && Plausible(env, ids, n, link, m)
    ensures var o := Process(env, n, link, m, st); Coherent(env, o.node) && Tidy(env, ids, o.node)
  {
    hide RingsHold, CacheExact, KeysDistinct, View.AddToRings, View.UpdateNeighbours, MakeMarker, LogMessage,
      CheckForNewPeers;
    if m.Ready? && n.group.Some? && n.state != Connected {
      FewerKeysDistinct(env.key, OnRings(n) + {n.id}, ids);
      ReadyKeeps(env, n, st);
    } else if m.ReadyNotif? {
      var s := Seen(n, link);
      assert s.peers.Keys == n.peers.Keys;
      CheckKeepsPlaced(env, ids, s, st);
    }
  }

  // --------------------------------------------------------- every run

  lemma ReceiveKeeps(env: Env, ids: set<Id>, n: Node, link: Link, m: Msg, st: Stamps)
    requires Invariant(env, ids, n) && StampsOk(st) && Canonical(m)
    requires CanReceive(env, n, link, m, st) && (!n.log.Logged(m.stamp) ==> Plausible(env, ids, n, link, m))
    ensures Invariant(env, ids, Receive(env, n, link, m, st).node)
  {
    hide Sound, Relay, Process, CanProcess, KeysDistinct, RingsHold, CacheExact;
    ReceiveStaysSound(env, n, link, m, st);
    if !n.log.Logged(m.stamp) {
      var told := Relay(n, link, m).node;
      ProcessKeeps(env, ids, told, link, m, st) by {
        assert CanProcess(env, told, link, m, st) by {
          LogIsIrrelevant(env, n, told.log, link, m, st);
        }
      }
    }
  }

  /** How often the event raises a counter. */
  ghost function CountedBy(n: Node, ev: Event): nat {
    if ev.Receives? && Parse(ev.bytes, ev.before).Success? && LinkOk(n, ev.link)
    then Counted(n, ev.link, Parse(ev.bytes, ev.before).message)
    else 0
  }

  lemma EventKeeps(env: Env, ids: set<Id>, n: Node, ev: Event)
    requires Invariant(env, ids, n) && Allowed(env, ids, n, ev)
    ensures Invariant(env, ids, After(env, n, ev))
  {
    if ev.Receives? {
      BytesKeep(env, ids, n, ev);
    } else if ev.JoinExpires? || ev.Loses? {
      CompletionKeeps(env, ids, n, ev);
    } else {
      OwnEventKeeps(env, ids, n, ev);
    }
  }

  lemma BytesKeep(env: Env, ids: set<Id>, n: Node, ev: Event)
    requires Invariant(env, ids, n) && Allowed(env, ids, n, ev) && ev.Receives?
    ensures Invariant(env, ids, After(env, n, ev))
  {
    hide Sound, Receive, Parse, KeysDistinct, RingsHold, CacheExact;
    if Parse(ev.bytes, ev.before).Success? {
      ParseIsCanonical(ev.bytes, ev.before);
      ReceiveKeeps(env, ids, n, ev.link, Parse(ev.bytes, ev.before).message, ev.stamps);
    }
  }

  lemma CompletionKeeps(env: Env, ids: set<Id>, n: Node, ev: Event)
    requires Invariant(env, ids, n) && Allowed(env, ids, n, ev) && (ev.JoinExpires? || ev.Loses?)
    ensures Invariant(env, ids, After(env, n, ev))
  {
    hide Sound, CheckForNewPeers, HandleDisconnect, KeysDistinct, RingsHold, CacheExact;
    SoundIsIndexed(n.log);
    if ev.JoinExpires? {
      var x := ev.peer;
      var done := n.(peers := if x in n.peers then n.peers[x := Connected] else n.peers,
                     joinTimers := n.joinTimers - {x});
      assert done.peers.Keys == n.peers.Keys;
      CheckKeepsPlaced(env, ids, done, ev.stamps);
      CheckGrows(env, done, ev.stamps);
    } else {
      FewerKeysDistinct(env.key, n.peers.Keys + {n.id}, ids);
      DisconnectKeeps(env, n, ev.peer, ev.address);
      DisconnectShrinks(env, n, ev.peer, ev.address);
    }
  }

  lemma OwnEventKeeps(env: Env, ids: set<Id>, n: Node, ev: Event)
    requires Invariant(env, ids, n) && Allowed(env, ids, n, ev)
    requires ev.Accepts? || ev.Calls? || ev.Sends? || ev.ReadyExpires?
    ensures Invariant(env, ids, After(env, n, ev))
  {
    hide Sound, LogMessage, KeysDistinct, RingsHold, CacheExact, Serialize;
    match ev
    case Accepts(a) =>
    case Calls(entry, port, stamp) =>
      LogStaysSound(Accept(n, entry).(state := Joining), Join(stamp, n.id, n.pubKey, port), None);
    case Sends(content, stamp) =>
      var gid := n.group.value.id;
      LogStaysSound(n, Data(stamp, MakeMarker(env.h, gid, gid), content), None);
    case ReadyExpires(x, stamp) =>
      LogStaysSound(n, Ready(stamp), None);
  }

  /** Every event extends the log at its end, and raises its counters by an exact
      amount, whatever else it may do to the node. */
  lemma EventGrows(env: Env, n: Node, ev: Event)
    requires Indexed(n.log) && Possible(env, n, ev)
    ensures Grown(n.log, After(env, n, ev).log, CountedBy(n, ev))
  {
    hide Indexed, Copies, LogMessage, Serialize, Parse, Receive, Counted, CheckForNewPeers, HandleDisconnect;
    match ev
    case Accepts(a) =>
    case Calls(entry, port, stamp) =>
      LogGrows(Accept(n, entry).(state := Joining), Join(stamp, n.id, n.pubKey, port), None);
    case Sends(content, stamp) =>
      var gid := n.group.value.id;
      LogGrows(n, Data(stamp, MakeMarker(env.h, gid, gid), content), None);
    case Receives(link, w, before, st) =>
      if Parse(w, before).Success? {
        ReceiveCounts(env, n, link, Parse(w, before).message, st);
      }
    case ReadyExpires(x, stamp) =>
      LogGrows(n, Ready(stamp), None);
    case JoinExpires(x, st) =>
      var peers := if x in n.peers then n.peers[x := Connected] else n.peers;
      CheckGrows(env, n.(peers := peers, joinTimers := n.joinTimers - {x}), st);
    case Loses(p, a) =>
      DisconnectShrinks(env, n, p, a);
  }

  lemma DisconnectShrinks(env: Env, n: Node, p: Id, a: Address)
    requires p in n.peers ==> n.group.Some?
    ensures var after := HandleDisconnect(env, n, p, a);
            && after.peers.Keys <= n.peers.Keys && after.newPeers.Keys <= n.newPeers.Keys
            && (forall a | a in after.newPeers :: after.newPeers[a] == n.newPeers[a])
            && after.id == n.id && after.pubKey == n.pubKey && after.log == n.log
            && (after.group.Some? ==> n.group.Some? && after.group.value.id == n.group.value.id)
  {
  }

  ghost predicate RunPossible(env: Env, n: Node, evs: seq<Event>)
    decreases |evs|
  {
    evs == [] || (Possible(env, n, evs[0]) && RunPossible(env, After(env, n, evs[0]), evs[1..]))
  }

  ghost predicate RunAllowed(env: Env, ids: set<Id>, n: Node, evs: seq<Event>)
    decreases |evs|
  {
    evs == [] || (Allowed(env, ids, n, evs[0]) && RunAllowed(env, ids, After(env, n, evs[0]), evs[1..]))
  }

  lemma {:induction false} AllowedIsPossible(env: Env, ids: set<Id>, n: Node, evs: seq<Event>)
    requires RunAllowed(env, ids, n, evs)
    ensures RunPossible(env, n, evs)
    decreases |evs|
  {
    hide Possible, After;
    if evs != [] {
      AllowedIsPossible(env, ids, After(env, n, evs[0]), evs[1..]);
    }
  }

  ghost function RunEnd(env: Env, n: Node, evs: seq<Event>): Node
    requires RunPossible(env, n, evs)
    decreases |evs|
  {
    if evs == [] then n else RunEnd(env, After(env, n, evs[0]), evs[1..])
  }

  ghost function CountedInRun(env: Env, n: Node, evs: seq<Event>): nat
    requires RunPossible(env, n, evs)
    decreases |evs|
  {
    if evs == [] then 0 else CountedBy(n, evs[0]) + CountedInRun(env, After(env, n, evs[0]), evs[1..])
  }

  /** Over every run: the tables, the rings and the cache stay as they should be,
      and every log entry can be read. */
  lemma {:induction false} RunKeeps(env: Env, ids: set<Id>, n: Node, evs: seq<Event>)
    requires Invariant(env, ids, n) && RunAllowed(env, ids, n, evs)
    ensures RunPossible(env, n, evs) && Invariant(env, ids, RunEnd(env, n, evs))
    decreases |evs|
  {
    hide Allowed, After, Invariant;
    AllowedIsPossible(env, ids, n, evs);
    if evs != [] {
      EventKeeps(env, ids, n, evs[0]);
      RunKeeps(env, ids, After(env, n, evs[0]), evs[1..]);
    }
  }

  /** Over every run that does not fail, whatever it does to the tables: entries
      keep their place in the log, and its counters account for every copy
      handled. */
  lemma {:induction false} RunGrows(env: Env, n: Node, evs: seq<Event>)
    requires Indexed(n.log) && RunPossible(env, n, evs)
    ensures Grown(n.log, RunEnd(env, n, evs).log, CountedInRun(env, n, evs))
    decreases |evs|
  {
    hide Possible, After, Copies, Indexed, CountedBy;
    if evs != [] {
      EventGrows(env, n, evs[0]);
      RunGrows(env, After(env, n, evs[0]), evs[1..]);
    }
  }

  // ------------------------------------------------ what a node remembers

  /** What an event hands the node to read, if it can. */
  function HeardBy(ev: Event): set<Msg> {
    if ev.Receives? && Parse(ev.bytes, ev.before).Success? then {Parse(ev.bytes, ev.before).message} else {}
  }

  /** What the node writes to others in it. */
  ghost function WrittenBy(env: Env, n: Node, ev: Event): set<Msg>
    requires Possible(env, n, ev)
  {
    match ev
    case Calls(entry, port, stamp) => {CallEntryPoint(n, entry, port, stamp).1}
    case Sends(content, stamp) => MessagesIn(BroadcastData(env, n, content, stamp).sends)
    case Receives(link, w, before, st) => MessagesIn(ReceiveBytes(env, n, link, w, before, st).sends)
    case ReadyExpires(x, stamp) => MessagesIn(SendReady(n, x, stamp).sends)
    case JoinExpires(x, st) => MessagesIn(CompleteJoin(env, n, x, st).sends)
    case _ => {}
  }

  lemma EventFiles(env: Env, n: Node, ev: Event)
    requires Possible(env, n, ev)
    ensures var log := After(env, n, ev).log;
            && Files(n.log, log, HeardBy(ev) + WrittenBy(env, n, ev), WrittenBy(env, n, ev)) && KeepsTexts(n.log, log)
  {
    hide LogMessage, Serialize, Parse, Receive, CheckForNewPeers, HandleDisconnect, Files, KeepsTexts, MessagesIn;
    NothingFiled(n.log);
    SentTogether([], []);
    var log, w := After(env, n, ev).log, WrittenBy(env, n, ev);
    match ev {
      case Calls(entry, port, stamp) =>
        LogFiles(Accept(n, entry).(state := Joining), Join(stamp, n.id, n.pubKey, port), None);
      case Sends(content, stamp) =>
        var gid := n.group.value.id;
        var m := Data(stamp, MakeMarker(env.h, gid, gid), content);
        LogFiles(n, m, None);
        OneSent(m, n.group.value.successors);
      case Receives(link, bytes, before, st) =>
        if Parse(bytes, before).Success? {
          ReceiveFiles(env, n, link, Parse(bytes, before).message, st);
        }
      case ReadyExpires(x, stamp) =>
        LogFiles(n, Ready(stamp), None);
        OneSent(Ready(stamp), {x});
      case JoinExpires(x, st) =>
        var peers := if x in n.peers then n.peers[x := Connected] else n.peers;
        CheckFiles(env, n.(peers := peers, joinTimers := n.joinTimers - {x}), st);
      case Loses(p, a) =>
        DisconnectShrinks(env, n, p, a);
      case Accepts(a) =>
    }
    if HeardBy(ev) == {} {
      FilesMore(n.log, log, w, w, HeardBy(ev) + w);
    }
  }

  function HeardIn(evs: seq<Event>): set<Msg> {
    if evs == [] then {} else HeardBy(evs[0]) + HeardIn(evs[1..])
  }

  ghost function WrittenIn(env: Env, n: Node, evs: seq<Event>): set<Msg>
    requires RunPossible(env, n, evs)
    decreases |evs|
  {
    if evs == [] then {} else WrittenBy(env, n, evs[0]) + WrittenIn(env, After(env, n, evs[0]), evs[1..])
  }

  /** The history is genuine: over every run that does not fail, what is added to
      it are texts of messages heard or written in that run, under their stamps;
      everything written is there; and no text that is there ever changes. */
  lemma {:induction false} RunFiles(env: Env, n: Node, evs: seq<Event>)
    requires RunPossible(env, n, evs)
    ensures Files(n.log, RunEnd(env, n, evs).log, HeardIn(evs) + WrittenIn(env, n, evs), WrittenIn(env, n, evs))
    ensures KeepsTexts(n.log, RunEnd(env, n, evs).log)
    decreases |evs|
  {
    hide Possible, After, Files, HeardBy, WrittenBy;
    if evs != [] {
      var next, rest := After(env, n, evs[0]), evs[1..];
      EventFiles(env, n, evs[0]);
      RunFiles(env, next, rest);
      var h, w := HeardBy(evs[0]) + WrittenBy(env, n, evs[0]), WrittenBy(env, n, evs[0]);
      FilesThen(n.log, next.log, RunEnd(env, next, rest).log, h, w, HeardIn(rest) + WrittenIn(env, next, rest),
                WrittenIn(env, next, rest));
      FilesMore(n.log, RunEnd(env, n, evs).log, h + (HeardIn(rest) + WrittenIn(env, next, rest)),
                WrittenIn(env, n, evs), HeardIn(evs) + WrittenIn(env, n, evs));
    } else {
      NothingFiled(n.log);
      SentTogether([], []);
      assert HeardIn(evs) + WrittenIn(env, n, evs) == {};
    }
  }

  /** Who it is, its key, and where each marker it knows leads. */
  ghost predicate Remembers(n: Node, after: Node) {
    && after.id == n.id && after.pubKey == n.pubKey
    && forall k | k in n.markers :: k in after.markers && after.markers[k] == n.markers[k]
  }

  lemma CheckRemembers(env: Env, n: Node, st: Stamps)
    requires CanCheck(env, n)
    ensures Remembers(n, CheckForNewPeers(env, n, st).node)
  {
    hide LogMessage, View.AddPeer, View.UpdateNeighbours, MakeMarker;
  }

  lemma ReceiveRemembers(env: Env, n: Node, link: Link, m: Msg, st: Stamps)
    requires CanReceive(env, n, link, m, st)
    ensures Remembers(n, Receive(env, n, link, m, st).node)
  {
    hide LogMessage, View.AddPeer, View.AddToRings, View.UpdateNeighbours, MakeMarker, CheckForNewPeers, AnswerJoin;
    if !n.log.Logged(m.stamp) {
      var told := Relay(n, link, m).node;
      if m.ReadyNotif? {
        CheckRemembers(env, Seen(told, link), st);
      } else if m.Join? {
        RequestRemembers(env, told, link.address, m, st);
      }
    }
  }

  lemma RequestRemembers(env: Env, n: Node, a: Address, m: Msg, st: Stamps)
    requires m.Join? && CanProcess(env, n, Unsorted(a), m, st)
    ensures Remembers(n, Process(env, n, Unsorted(a), m, st).node)
  {
    hide LogMessage, View.AddPeer, View.AddToRings, View.UpdateNeighbours, MakeMarker, AcknowledgeJoin;
    var up := if n.state != Connected then Found(env, n, st.groupId) else n;
    var named := up.(newPeers := up.newPeers[a := up.newPeers[a].(id := m.id, pubKey := m.pubKey, state := Joining)]);
    var logged := LogMessage(named, m, Some(m.id));
    IdKept(env.key, EmptyView(st.groupId), n.id, n.id);
    if logged.joinToken {
      AnswerRemembers(env, logged, a, m.port, st);
    }
  }

  lemma AnswerRemembers(env: Env, n: Node, a: Address, port: Port, st: Stamps)
    requires HasOwnMarker(env, n) && a in n.newPeers
    ensures Remembers(n, AnswerJoin(env, n, a, port, st).node)
  {
    hide LogMessage, View.AddPeer, View.UpdateNeighbours, MakeMarker;
  }

  /** Over every run that does not fail, markers are learnt but never lost or led
      elsewhere, not even when the node starts over; and it stays who it is. */
  lemma {:induction false} RunRemembers(env: Env, n: Node, evs: seq<Event>)
    requires RunPossible(env, n, evs)
    ensures Remembers(n, RunEnd(env, n, evs))
    decreases |evs|
  {
    hide Possible, After;
    if evs != [] {
      EventRemembers(env, n, evs[0]);
      RunRemembers(env, After(env, n, evs[0]), evs[1..]);
    }
  }

  lemma EventRemembers(env: Env, n: Node, ev: Event)
    requires Possible(env, n, ev)
    ensures Remembers(n, After(env, n, ev))
  {
    hide LogMessage, Serialize, Parse, Receive, CheckForNewPeers, View.RemovePeer, View.UpdateNeighbours, MakeMarker;
    match ev
    case Receives(link, bytes, before, st) =>
      if Parse(bytes, before).Success? {
        ReceiveRemembers(env, n, link, Parse(bytes, before).message, st);
      }
    case JoinExpires(x, st) =>
      var peers := if x in n.peers then n.peers[x := Connected] else n.peers;
      CheckRemembers(env, n.(peers := peers, joinTimers := n.joinTimers - {x}), st);
    case _ =>
  }

  /** How many copies the node was handed that it could read. */
  function Received(evs: seq<Event>): nat {
    if evs == [] then 0
    else (if evs[0].Receives? && Parse(evs[0].bytes, evs[0].before).Success? then 1 else 0) + Received(evs[1..])
  }

  /** Every new request or acknowledgement in the run comes from a peer not yet
      identified, and every other new message from an identified one. */
  ghost predicate RunProper(env: Env, n: Node, evs: seq<Event>)
    requires RunPossible(env, n, evs)
    decreases |evs|
  {
    evs == []
    || ((evs[0].Receives? && Parse(evs[0].bytes, evs[0].before).Success?
         ==> Proper(n, evs[0].link, Parse(evs[0].bytes, evs[0].before).message))
        && RunProper(env, After(env, n, evs[0]), evs[1..]))
  }

  /** Count conservation: in every proper run the counters of the log sum to
      what they did before plus one for every readable copy received. */
  lemma {:induction false} ProperRunConserves(env: Env, n: Node, evs: seq<Event>)
    requires Indexed(n.log) && RunPossible(env, n, evs) && RunProper(env, n, evs)
    ensures var end := RunEnd(env, n, evs);
            Indexed(end.log) && Copies(end.log) == Copies(n.log) + Received(evs)
    decreases |evs|
  {
    hide After, Copies, Indexed, Parse, CanReceive;
    if evs != [] {
      EventGrows(env, n, evs[0]);
      ProperRunConserves(env, After(env, n, evs[0]), evs[1..]);
    }
  }

  /** A node as it starts. */
  function StartingNode(id: Id, pubKey: Bytes): Node {
    Node(id, pubKey, New, map[], None, map[], true, map[], EMPTY_LOG, {}, {})
  }

  lemma StartingNodeIsFine(env: Env, ids: set<Id>, id: Id, pubKey: Bytes)
    requires KeysDistinct(env.key, ids) && id in ids && Sized(id, pubKey)
    ensures Invariant(env, ids, StartingNode(id, pubKey)) && Copies(EMPTY_LOG) == 0
  {
  }
}
