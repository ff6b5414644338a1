/** Where the code keeps its tables in order only under a condition: the exact
    condition, and what a disconnection leaves behind. */
module Limits {
  import opened Bytes
  import opened Rings
  import opened Groups
  import opened Messages
  import opened Logs
  import opened Nodes
  import opened Ledgers
  import opened Invariants

  lemma OneMemberSet(key: RingKeys, v: View, a: set<Id>, b: set<Id>)
    requires RingsHold(key, v, a) && RingsHold(key, v, b)
    ensures a == b
  {
    forall p
      ensures p in a <==> p in b
    {
      MemberHasSlot(key, 0, v.rings[0], a, p);
      MemberHasSlot(key, 0, v.rings[0], b, p);
      var slot := Slot(key(0, p), p);
      assert IsRing(key, 0, v.rings[0], a) && IsRing(key, 0, v.rings[0], b);
      assert slot in v.rings[0] <==> p in a;
      assert slot in v.rings[0] <==> p in b;
    }
  }

  /** Calling an entry point is safe if and only if the caller is not connected:
      a connected one stays on its own rings while it says it is joining. */
  lemma CallNeedsDisconnected(env: Env, n: Node, entry: Address, port: Port, stamp: Bytes)
    requires Consistent(env, n)
    ensures Consistent(env, CallEntryPoint(n, entry, port, stamp).0) <==> n.state != Connected
  {
    hide RingsHold, LogMessage, MakeMarker;
    var after := CallEntryPoint(n, entry, port, stamp).0;
    if n.state == Connected && Consistent(env, after) {
      OneMemberSet(env.key, n.group.value, OnRings(n), OnRings(after));
    }
  }

  lemma AnswerPeers(env: Env, n: Node, a: Address, port: Port, st: Stamps)
    requires HasOwnMarker(env, n) && a in n.newPeers
    ensures var after, x := AnswerJoin(env, n, a, port, st).node, n.newPeers[a];
            && after.group.Some? && after.group.value.peers == n.group.value.peers + {x.id}
            && after.peers == n.peers[x.id := x.state] && after.newPeers == n.newPeers - {a}
  {
    hide Serialize, MakeMarker, LogMessage, View.UpdateNeighbours;
    UpdateKeepsPeers(env, n.group.value.AddPeer(env.key, n.newPeers[a].id), n.id);
  }

  lemma UpdateKeepsPeers(env: Env, v: View, local: Id)
    ensures v.UpdateNeighbours(env.key, local).peers == v.peers
  {
  }

  lemma FoundingIs(env: Env, n: Node, a: Address, m: Msg, groupId: Bytes)
    requires m.Join? && n.state != Connected && a in n.newPeers
    ensures var g := Asked(env, n, a, m, groupId);
            && g.state == Connected && g.group.Some? && g.group.value.peers == {} && g.peers == n.peers && g.id == n.id
            && g.joinToken == n.joinToken && a in g.newPeers && g.newPeers[a].id == m.id
  {
    hide LogMessage, View.AddToRings;
    AskedIs(env, n, a, m, groupId);
    AddToRingsKeepsPeers(env, EmptyView(groupId), n.id);
  }

  lemma AddToRingsKeepsPeers(env: Env, v: View, p: Id)
    ensures v.AddToRings(env.key, p).peers == v.peers
  {
  }

  lemma FoundingRings(env: Env, n: Node, a: Address, m: Msg, groupId: Bytes)
    requires Consistent(env, n) && n.state != Connected && MarkerFree(env, n, groupId)
    requires m.Join? && a in n.newPeers && KeysDistinct(env.key, {n.id})
    ensures var g := Asked(env, n, a, m, groupId);
            && g.group.Some? && RingsHold(env.key, g.group.value, {n.id})
            && (n.peers == map[] ==> Coherent(env, g))
  {
    hide RingsHold, CacheExact, KeysDistinct, MakeMarker, Asked, View.AddToRings;
    TakeFirstPlace(env.key, groupId, n.id);
    AskedIs(env, n, a, m, groupId);
    if n.peers == map[] {
      FoundKeeps(env, n, groupId);
      assert OnRings(Asked(env, n, a, m, groupId)) == OnRings(Found(env, n, groupId));
    }
  }

  /** What a JOIN leaves at a node that is not connected, which has to found a
      group first. */
  lemma FoundingOutcome(env: Env, n: Node, a: Address, m: Msg, st: Stamps)
    requires Consistent(env, n) && n.state != Connected && m.Join? && CanProcess(env, n, Unsorted(a), m, st)
    requires m.id != n.id && KeysDistinct(env.key, {m.id, n.id})
    ensures var after := Process(env, n, Unsorted(a), m, st).node;
            (CanFound(n, m.id) ==> Coherent(env, after)) && (Consistent(env, after) ==> CanFound(n, m.id))
  {
    hide RingsHold, CacheExact, KeysDistinct, MakeMarker, Asked, AnswerJoin, Process, HasOwnMarker;
    FewerKeysDistinct(env.key, {n.id}, {m.id, n.id});
    RequestIs(env, n, a, m, st);
    FoundingIs(env, n, a, m, st.groupId);
    FoundingRings(env, n, a, m, st.groupId);
    var g := Asked(env, n, a, m, st.groupId);
    if g.joinToken {
      AnswerPeers(env, g, a, m.port, st);
      if n.peers == map[] {
        assert OnRings(g) + {m.id, g.id} == {m.id, n.id};
        AnswerKeeps(env, g, a, m.port, st);
      } else if n.peers.Keys == {m.id} {
        FoundingForOne(env, g, a, m.port, st);
      } else {
        SomebodyElse(n.peers.Keys, m.id);
      }
    } else {
      var queued := g.(newPeers := g.newPeers[a := g.newPeers[a].(port := m.port)]);
      assert OnRings(queued) == OnRings(g);
      assert n.peers != map[] ==> n.peers.Keys != {};
      KeepsOwnMarker(env, g, queued);
    }
  }

  lemma KeepsOwnMarker(env: Env, n: Node, m: Node)
    requires m == n.(newPeers := m.newPeers)
    ensures HasOwnMarker(env, n) <==> HasOwnMarker(env, m)
  {
  }

  lemma SomebodyElse(some: set<Id>, x: Id)
    requires some != {} && some != {x}
    ensures some + {x} != {x}
  {
    assert some + {x} == {x} ==> some <= {x};
  }

  /** A JOIN that makes a node found a group keeps its tables right if and only
      if the node has no peers, or has just the one that asks and answers it at
      once: otherwise its peers are left out of the group. */
  lemma FoundingLeavesNobodyOut(env: Env, n: Node, a: Address, m: Msg, st: Stamps)
    requires Consistent(env, n) && n.state != Connected && m.Join? && !n.log.Logged(m.stamp)
    requires CanReceive(env, n, Unsorted(a), m, st) && m.id != n.id && KeysDistinct(env.key, {m.id, n.id})
    ensures Consistent(env, Receive(env, n, Unsorted(a), m, st).node) <==> CanFound(n, m.id)
    ensures Coherent(env, Receive(env, n, Unsorted(a), m, st).node) <==> CanFound(n, m.id)
  {
    hide RingsHold, CacheExact, KeysDistinct, MakeMarker, Process, CanProcess, LogMessage;
    var told := Relay(n, Unsorted(a), m).node;
    LogIsIrrelevant(env, n, told.log, Unsorted(a), m, st);
    assert OnRings(told) == OnRings(n);
    FoundingOutcome(env, told, a, m, st);
  }

  /** Filing p after READY without recomputing. */
  lemma LateFiling(env: Env, n: Node, p: Id)
    requires Coherent(env, n) && n.state == Connected && p != n.id
    requires KeysDistinct(env.key, OnRings(n) + {p})
    ensures var after := n.(peers := n.peers[p := Connected], group := Some(n.group.value.AddPeer(env.key, p)));
            && Consistent(env, after)
            && (CacheRight(env, after) <==>
                p in n.peers || p !in Succs(env.key, OnRings(after), n.id) + Preds(env.key, OnRings(after), n.id))
  {
    hide View.AddPeer, RingsHold, KeysDistinct, MakeMarker, Succs, Preds;
    var after := n.(peers := n.peers[p := Connected], group := Some(n.group.value.AddPeer(env.key, p)));
    TakeInOnly(env.key, n.group.value, OnRings(n), p);
    assert OnRings(after) == OnRings(n) + {p};
    if p in n.peers {
      assert OnRings(after) == OnRings(n);
    } else {
      SpliceLocality(env.key, OnRings(n), p, n.id);
    }
  }

  /** Consistent and CacheRight look at neither log nor pending peers. */
  lemma SameTables(env: Env, n: Node, m: Node)
    requires m == n.(log := m.log, newPeers := m.newPeers)
    ensures Consistent(env, m) <==> Consistent(env, n)
    ensures CacheRight(env, m) <==> CacheRight(env, n)
    ensures OnRings(m) == OnRings(n)
  {
    hide RingsHold, CacheExact, MakeMarker;
  }

  /** A JOIN_ACK handled after READY still files its sender everywhere, but
      leaves the cached neighbours as they were: they are right if and only if
      the sender did not become a neighbour, or was there already. */
  lemma LateAck(env: Env, n: Node, a: Address, m: Msg, st: Stamps)
    requires Coherent(env, n) && n.state == Connected && m.JoinAck? && !n.log.Logged(m.stamp)
    requires CanReceive(env, n, Unsorted(a), m, st)
    requires m.peerId != n.id && KeysDistinct(env.key, OnRings(n) + {m.peerId})
    ensures var after, p := Receive(env, n, Unsorted(a), m, st).node, m.peerId;
            && Consistent(env, after) && after.peers == n.peers[p := Connected]
            && (CacheRight(env, after) <==>
                p in n.peers || p !in Succs(env.key, OnRings(after), n.id) + Preds(env.key, OnRings(after), n.id))
  {
    hide View.AddPeer, RingsHold, CacheExact, KeysDistinct, MakeMarker, Succs, Preds, LogMessage, Serialize;
    var p := m.peerId;
    LateFiling(env, n, p);
    var filed := n.(peers := n.peers[p := Connected], group := Some(n.group.value.AddPeer(env.key, p)));
    SameTables(env, filed, Receive(env, n, Unsorted(a), m, st).node);
  }

  /** READY_NOTIF from somebody nameless marks a pending peer without id as
      identified, and then admits it, or somebody else before it. */
  lemma NamelessIsAdmitted(env: Env, ids: set<Id>, n: Node, a: Address, st: Stamps)
    requires a in n.newPeers && n.newPeers[a].id == [] && n.newPeers[a].state != New && [] !in ids && CanCheck(env, n)
    ensures !Placed(env, ids, CheckForNewPeers(env, n, st).node)
  {
    hide AnswerJoin, KeysDistinct, HasOwnMarker;
    SomebodyFirst(n.newPeers);
    forall b | FirstKnown(n.newPeers, b)
      ensures !Placed(env, ids, AnswerJoin(env, n, b, n.newPeers[b].port, st).node)
    {
      AnswerPeers(env, n, b, n.newPeers[b].port, st);
      var after := AnswerJoin(env, n, b, n.newPeers[b].port, st).node;
      if b == a {
        assert [] in after.peers.Keys;
      } else {
        assert a in after.newPeers && !Stranger(ids, after, after.newPeers[a].id);
      }
    }
  }

  /** A READY_NOTIF keeps the invariant if and only if its sender is identified:
      the code does not look. Connections not identified yet have no id. */
  lemma NoticeNeedsName(env: Env, ids: set<Id>, n: Node, link: Link, m: Msg, st: Stamps)
    requires Invariant(env, ids, n) && StampsOk(st) && Canonical(m) && m.ReadyNotif? && !n.log.Logged(m.stamp)
    requires CanReceive(env, n, link, m, st) && [] !in ids && forall p | p in n.peers :: n.peers[p] != New
    requires forall a | a in n.newPeers && n.newPeers[a].state == New :: n.newPeers[a].id == []
    ensures Invariant(env, ids, Receive(env, n, link, m, st).node) <==> Known(n, link)
  {
    hide Sound, Coherent, KeysDistinct, CheckForNewPeers, LogMessage, Canonical, HasOwnMarker;
    if Known(n, link) {
      ReceiveKeeps(env, ids, n, link, m, st);
    } else {
      NamelessIsAdmitted(env, ids, Seen(n, link), link.address, st);
      assert Receive(env, n, link, m, st).node == CheckForNewPeers(env, Seen(n, link), st).node;
    }
  }

  /** Nothing of p is left after handle_disconnect(p): not among the peers, on
      no ring, in no cached neighbour set. */
  lemma DisconnectPurges(env: Env, n: Node, p: Id, a: Address)
    requires Coherent(env, n) && p in n.peers && KeysDistinct(env.key, n.peers.Keys + {n.id})
    ensures var after := HandleDisconnect(env, n, p, a);
            && Coherent(env, after) && after.peers == n.peers - {p}
            && (after.group.Some? ==>
                && p !in after.group.value.peers
                && p !in after.group.value.successors + after.group.value.predecessors
                && forall i, slot | 0 <= i < RINGS_NB && slot in after.group.value.rings[i] :: slot.id != p)
  {
    hide View.RemovePeer, View.UpdateNeighbours;
    DisconnectKeeps(env, n, p, a);
    var after := HandleDisconnect(env, n, p, a);
    if after.group.Some? {
      forall i, slot | 0 <= i < RINGS_NB && slot in after.group.value.rings[i]
        ensures slot.id != p
      {
        assert IsRing(env.key, i, after.group.value.rings[i], OnRings(after));
      }
    }
  }

  /** Of a peer that is not filed, its pending connection goes, and nothing else
      changes; but when nobody is left at all, the node starts over. */
  lemma PendingPurged(env: Env, n: Node, p: Id, a: Address)
    requires p !in n.peers
    ensures var after := HandleDisconnect(env, n, p, a);
            && a !in after.newPeers
            && (forall b :: b in after.newPeers <==> b in n.newPeers && b != a)
            && (forall b | b in after.newPeers :: after.newPeers[b] == n.newPeers[b])
            && after == n.(newPeers := after.newPeers, group := after.group, state := after.state)
            && if n.peers == map[] && n.newPeers.Keys <= {a} then StartedOver(after)
               else after.group == n.group && after.state == n.state
  {
    var after := HandleDisconnect(env, n, p, a);
    assert n.newPeers - {a} == map[] <==> n.newPeers.Keys <= {a} by {
      assert (n.newPeers - {a}).Keys == n.newPeers.Keys - {a};
      assert n.newPeers - {a} == map[] <==> (n.newPeers - {a}).Keys == {};
    }
  }

  // ---------------------------------------------- disconnections in bulk

  /** Settled in a view: connected, knowing exactly the other members. */
  ghost predicate Settled(env: Env, n: Node, members: set<Id>) {
    && Coherent(env, n) && n.state == Connected
    && n.id in members && n.peers.Keys == members - {n.id}
  }

  /** Alone and waiting for nobody: the group is gone. */
  ghost predicate StartedOver(n: Node) {
    n.group.None? && n.state == New && n.peers == map[] && n.newPeers == map[]
  }

  /** A peer that is gone, and where it was. */
  datatype Loss = Loss(peer: Id, address: Address)

  function Gone(lost: seq<Loss>): set<Id> {
    set l | l in lost :: l.peer
  }

  /** Losing these peers, in this order and possibly more than once, takes the
      node from n to end. */
  ghost predicate Loses(env: Env, n: Node, lost: seq<Loss>, end: Node)
    decreases |lost|
  {
    if lost == [] then end == n
    else
      && (lost[0].peer in n.peers ==> n.group.Some?)
      && Loses(env, HandleDisconnect(env, n, lost[0].peer, lost[0].address), lost[1..], end)
  }

  /** Nobody is left, and nobody waits. */
  ghost predicate Deserted(n: Node, members: set<Id>) {
    members == {n.id} && n.newPeers == map[]
  }

  lemma LosingOne(env: Env, n: Node, members: set<Id>, p: Id, a: Address)
    requires Settled(env, n, members) && p != n.id && KeysDistinct(env.key, members) && !Deserted(n, members)
    ensures var after := HandleDisconnect(env, n, p, a);
            after.id == n.id &&
            if Deserted(after, members - {p}) then StartedOver(after) else Settled(env, after, members - {p})
  {
    hide View.RemovePeer, View.UpdateNeighbours, RingsHold, CacheExact, KeysDistinct, MakeMarker;
    assert n.peers.Keys + {n.id} == members;
    DisconnectKeeps(env, n, p, a);
    assert (n.peers - {p}).Keys == members - {p} - {n.id};
    assert n.peers - {p} == map[] <==> (n.peers - {p}).Keys == {};
    assert members - {p} - {n.id} == {} <==> members - {p} == {n.id};
    assert n.peers == map[] <==> n.peers.Keys == {};
    assert members - {n.id} == {} <==> members == {n.id};
    if p !in n.peers {
      assert members - {p} == members;
    }
  }

  lemma {:induction false} LosingAgain(env: Env, n: Node, lost: seq<Loss>, end: Node)
    requires StartedOver(n) && Loses(env, n, lost, end)
    ensures end == n
    decreases |lost|
  {
    if lost != [] {
      assert HandleDisconnect(env, n, lost[0].peer, lost[0].address) == n;
      LosingAgain(env, n, lost[1..], end);
    }
  }

  lemma GoneFirst(members: set<Id>, lost: seq<Loss>)
    requires lost != []
    ensures members - Gone(lost) == (members - {lost[0].peer}) - Gone(lost[1..])
    ensures lost[0].peer in Gone(lost) && Gone(lost[1..]) <= Gone(lost)
  {
    assert lost == [lost[0]] + lost[1..];
    forall p
      ensures p in Gone(lost) <==> p == lost[0].peer || p in Gone(lost[1..])
    {
      if p in Gone(lost) && p != lost[0].peer {
        var l :| l in lost && l.peer == p;
        assert l in lost[1..];
      }
      if p in Gone(lost[1..]) {
        var l :| l in lost[1..] && l.peer == p;
        assert l in lost;
      }
      assert lost[0] in lost;
    }
  }

  /** Whatever the order in which a settled node learns that peers are gone, and
      however often, it ends settled among the rest, or starts over when nobody
      is left and nobody waits. */
  lemma {:induction false} LosingSettles(env: Env, n: Node, members: set<Id>, lost: seq<Loss>, end: Node)
    requires Settled(env, n, members) && KeysDistinct(env.key, members) && Loses(env, n, lost, end)
    requires n.id !in Gone(lost) && !Deserted(n, members)
    ensures end.id == n.id
    ensures if Deserted(end, members - Gone(lost)) then StartedOver(end) else Settled(env, end, members - Gone(lost))
    decreases |lost|
  {
    hide HandleDisconnect, Coherent, KeysDistinct, Gone;
    if lost == [] {
      assert members - Gone(lost) == members by { GoneNone(lost); }
    } else {
      var p, a, rest := lost[0].peer, lost[0].address, lost[1..];
      GoneFirst(members, lost);
      LosingOne(env, n, members, p, a);
      var next := HandleDisconnect(env, n, p, a);
      FewerKeysDistinct(env.key, members - {p}, members);
      if Deserted(next, members - {p}) {
        LosingAgain(env, next, rest, end);
        assert members - Gone(lost) == {n.id};
      } else {
        LosingSettles(env, next, members - {p}, rest, end);
      }
    }
  }

  lemma GoneNone(lost: seq<Loss>)
    requires lost == []
    ensures Gone(lost) == {}
  {
  }

  lemma SettledView(env: Env, n: Node, members: set<Id>)
    requires Settled(env, n, members)
    ensures n.group.Some? && RingsHold(env.key, n.group.value, members)
    ensures CacheExact(env.key, n.group.value, members, n.id)
  {
    hide RingsHold, CacheExact, MakeMarker;
    assert OnRings(n) == members;
  }

  lemma SurvivorView(env: Env, n: Node, members: set<Id>, lost: seq<Loss>, left: set<Id>, other: Id, end: Node)
    requires Settled(env, n, members) && KeysDistinct(env.key, members) && Loses(env, n, lost, end)
    requires n.id !in Gone(lost) && left == members - Gone(lost) && other in left && other != n.id
    ensures Settled(env, end, left) && end.id == n.id && n.id in left && end.group.Some?
    ensures RingsHold(env.key, end.group.value, left) && CacheExact(env.key, end.group.value, left, n.id)
  {
    hide HandleDisconnect, KeysDistinct, RingsHold, CacheExact, MakeMarker, Coherent, Loses, Gone;
    assert other in members;
    LosingSettles(env, n, members, lost, end);
    SettledView(env, end, left);
  }

  /** n, settled among the members, survives these losses and ends as `end`,
      among those left. */
  ghost predicate Survives(env: Env, n: Node, members: set<Id>, lost: seq<Loss>, end: Node, left: set<Id>) {
    Settled(env, n, members) && Loses(env, n, lost, end) && left == members - Gone(lost) && n.id in left
  }

  /** Survivors that learn of the same losses, each in its own order, end with
      the same rings; and who is whose neighbour is mutual again. */
  lemma SurvivorsAgree(env: Env, a: Node, b: Node, members: set<Id>, lostA: seq<Loss>, lostB: seq<Loss>,
                       endA: Node, endB: Node, left: set<Id>)
    requires Survives(env, a, members, lostA, endA, left) && Survives(env, b, members, lostB, endB, left)
    requires a.id != b.id && KeysDistinct(env.key, members)
    ensures Settled(env, endA, left) && Settled(env, endB, left)
    ensures endA.group.Some? && endB.group.Some? && endA.group.value.rings == endB.group.value.rings
    ensures b.id in endA.group.value.successors <==> a.id in endB.group.value.predecessors
    ensures a.id in endB.group.value.successors <==> b.id in endA.group.value.predecessors
  {
    hide Settled, Loses, KeysDistinct, RingsHold, CacheExact, Gone, Coherent;
    SurvivorView(env, a, members, lostA, left, b.id, endA);
    SurvivorView(env, b, members, lostB, left, a.id, endB);
    ViewsAgree(env.key, endA.group.value, endB.group.value, left, a.id, b.id);
  }

  lemma ViewsAgree(key: RingKeys, v: View, w: View, members: set<Id>, p: Id, q: Id)
    requires RingsHold(key, v, members) && RingsHold(key, w, members)
    requires CacheExact(key, v, members, p) && CacheExact(key, w, members, q) && p in members && q in members
    ensures v.rings == w.rings
    ensures (q in v.successors <==> p in w.predecessors) && (p in w.successors <==> q in v.predecessors)
  {
    hide RingsHold, CacheExact;
    SameMembersSameRings(key, v, w, members);
    CachesAreMutual(key, v, w, members, p, q);
  }

  lemma CachesAreMutual(key: RingKeys, v: View, w: View, members: set<Id>, p: Id, q: Id)
    requires CacheExact(key, v, members, p) && CacheExact(key, w, members, q) && p in members && q in members
    ensures (q in v.successors <==> p in w.predecessors) && (p in w.successors <==> q in v.predecessors)
  {
    hide Succs, Preds;
    NeighboursAreMutual(key, members, p, q);
    NeighboursAreMutual(key, members, q, p);
  }
}
