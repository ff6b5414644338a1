/** One newcomer joining: the notification floods the old rings, every member
    acknowledges, READY seats the newcomer, and each member learns once that it
    may be relied on. */
module Joins {
  import opened Bytes
  import opened Rings
  import opened Groups
  import opened Messages
  import opened Logs
  import opened Nodes
  import opened Invariants
  import opened Floods
  import opened Systems

  function Once(b: bool): nat { if b then 1 else 0 }

  /** Who joins whom, and the messages this takes, with their stamps. */
  datatype Plan = Plan(
    env: Env,
    members: set<Id>,
    entry: Id,
    newcomer: Id,
    groupId: Bytes,
    notif: Msg,
    acks: map<Id, Msg>,
    ready: Msg,
    readyNotif: Msg,
    addresses: map<Id, Address>)
  {
    ghost function Graph(): Graph { RingGraph(env.key, members) }

    function Everyone(): set<Id> { members + {newcomer} }

    /** The stamp a node gives the message it sends in reply. */
    function StampsAt(p: Id): Stamps
      requires p in members ==> p in acks
    {
      Stamps([], if p in members then acks[p].stamp else readyNotif.stamp, [])
    }
  }

  /** One of the messages of the plan. */
  ghost predicate Planned(pl: Plan, m: Msg) {
    || m == pl.notif || m == pl.ready || m == pl.readyNotif
    || (m.JoinAck? && m.peerId in pl.acks && m == pl.acks[m.peerId])
  }

  /** The messages are what the code would write, ids and addresses are
      distinct, and so are the stamps. */
  ghost predicate PlanOk(pl: Plan) {
    && KeysDistinct(pl.env.key, pl.Everyone())
    && pl.newcomer !in pl.members && pl.entry in pl.members
    && pl.acks.Keys == pl.members && pl.addresses.Keys == pl.Everyone()
    && (forall p, q | p in pl.Everyone() && q in pl.Everyone() && p != q :: pl.addresses[p] != pl.addresses[q])
    && pl.notif.JoinNotif? && !pl.notif.channel && pl.notif.groupId == pl.groupId
    && pl.notif.marker == MakeMarker(pl.env.h, pl.groupId, pl.groupId)
    && pl.notif.peerId == pl.newcomer && pl.notif.ip == pl.addresses[pl.newcomer]
    && (forall p | p in pl.members :: pl.acks[p].JoinAck? && pl.acks[p].groupId == pl.groupId && pl.acks[p].peerId == p)
    && pl.ready.Ready? && pl.readyNotif.ReadyNotif?
    && forall m, m' | Planned(pl, m) && Planned(pl, m') && m.stamp == m'.stamp :: m == m'
  }

  // --------------------------------------------------- one node at a time

  /** This member has seen the notification. */
  predicate Told(pl: Plan, n: Node) { n.log.Logged(pl.notif.stamp) }

  /** This member counts the newcomer as connected. */
  predicate Done(pl: Plan, n: Node) { pl.newcomer in n.peers && n.peers[pl.newcomer] == Connected }

  /** The newcomer is a direct neighbour. */
  predicate Beside(n: Node, p: Id) {
    n.group.Some? && p in n.group.value.predecessors + n.group.value.successors
  }

  ghost function ViewOf(pl: Plan, n: Node): set<Id> {
    pl.members + if Told(pl, n) then {pl.newcomer} else {}
  }

  /** In the group, and waiting for nobody else. */
  ghost predicate Seated(pl: Plan, n: Node, p: Id) {
    && n.id == p && Coherent(pl.env, n) && n.state == Connected && n.group.Some? && n.group.value.id == pl.groupId
    && PeersKnown(n) && NobodyKnown(n.newPeers)
  }

  /** A member during the join. Once told it holds the larger view; until it is
      done with the newcomer it waits for exactly one of two things: its timer
      if they are not neighbours, READY_NOTIF if they are. */
  ghost predicate MemberOk(pl: Plan, n: Node, p: Id)
    requires p in pl.acks && pl.acks[p].JoinAck?
  {
    && Seated(pl, n, p) && n.pubKey == pl.acks[p].pubKey
    && n.peers.Keys == ViewOf(pl, n) - {p} && n.joinTimers <= {pl.newcomer}
    && (forall q | q in n.peers && q != pl.newcomer :: n.peers[q] == Connected)
    && (!Told(pl, n) ==> pl.newcomer !in n.joinTimers && !n.log.Logged(pl.readyNotif.stamp))
    && (Told(pl, n) && Done(pl, n) ==> n.joinToken && pl.newcomer !in n.joinTimers)
    && (Told(pl, n) && !Done(pl, n) ==>
      && !n.joinToken && !n.log.Logged(pl.readyNotif.stamp)
      && (pl.newcomer in n.joinTimers <==> !Beside(n, pl.newcomer)))
  }

  /** The newcomer: it knows those who acknowledged, and once READY has come,
      that is everyone. */
  ghost predicate NewcomerOk(pl: Plan, n: Node)
    requires pl.acks.Keys == pl.members
  {
    && n.id == pl.newcomer && Coherent(pl.env, n) && NobodyKnown(n.newPeers) && n.joinToken && n.joinTimers == {}
    && (forall p | p in n.peers :: n.peers[p] == Connected)
    && n.peers.Keys <= pl.members
    && (n.group.Some? ==> n.group.value.id == pl.groupId) && MarkerFree(pl.env, n, pl.groupId)
    && !n.log.Logged(pl.notif.stamp)
    && (forall p | p in pl.members :: n.log.Logged(pl.acks[p].stamp) <==> p in n.peers)
    && (n.log.Logged(pl.ready.stamp) <==> n.state == Connected)
    && (n.state == Connected ==> n.peers.Keys == pl.members)
  }

  lemma StampsDiffer(pl: Plan, p: Id)
    requires PlanOk(pl) && p in pl.members
    ensures pl.acks[p].stamp != pl.notif.stamp && pl.acks[p].stamp != pl.ready.stamp
    ensures pl.acks[p].stamp != pl.readyNotif.stamp && pl.notif.stamp != pl.ready.stamp
    ensures pl.notif.stamp != pl.readyNotif.stamp && pl.ready.stamp != pl.readyNotif.stamp
    ensures forall q | q in pl.members && q != p :: pl.acks[q].stamp != pl.acks[p].stamp
  {
    assert Planned(pl, pl.acks[p]) && Planned(pl, pl.notif) && Planned(pl, pl.ready) && Planned(pl, pl.readyNotif);
    forall q | q in pl.members && q != p
      ensures pl.acks[q].stamp != pl.acks[p].stamp
    {
      assert Planned(pl, pl.acks[q]);
    }
  }

  /** What a member's neighbours are. */
  lemma MemberNeighbours(pl: Plan, n: Node, p: Id)
    requires PlanOk(pl) && p in pl.members && MemberOk(pl, n, p)
    ensures OnRings(n) == ViewOf(pl, n) && HasOwnMarker(pl.env, n)
    ensures CacheExact(pl.env.key, n.group.value, ViewOf(pl, n), p)
    ensures !Told(pl, n) ==>
      n.group.value.successors == pl.Graph().Succ(p) && n.group.value.predecessors == pl.Graph().Pred(p)
  {
    hide CacheExact, RingsHold, MakeMarker, KeysDistinct, Succs, Preds, Plan.Graph;
    assert OnRings(n) == ViewOf(pl, n);
    if !Told(pl, n) {
      assert ViewOf(pl, n) == pl.members;
      CacheSets(pl, n.group.value, p);
    }
  }

  lemma CacheSets(pl: Plan, v: View, p: Id)
    requires CacheExact(pl.env.key, v, pl.members, p) && p in pl.members
    ensures v.successors == pl.Graph().Succ(p) && v.predecessors == pl.Graph().Pred(p)
  {
    RingGraphEdges(pl.env.key, pl.members, p);
  }

  /** What logging changes: the entry of this message only. */
  lemma LogEffect(n: Node, m: Msg, from: Option<Id>)
    requires m.IsBroadcast() && !n.log.Logged(m.stamp) ==> Routable(n, m.marker)
    ensures var log := LogMessage(n, m, from).log;
            && (forall t | t != m.stamp :: SameEntry(n.log, log, t))
            && (n.log.Logged(m.stamp) && from.None? ==> log == n.log)
            && log.Logged(m.stamp)
            && log.entries[m.stamp].control
               == var c := if n.log.Logged(m.stamp) then n.log.entries[m.stamp].control else Expected(n, m);
                  if from.Some? then Credit(c, from.value) else c
  {
    hide Serialize, Credit;
  }

  /** What acknowledging x changes, besides the view. */
  lemma AcknowledgeEffect(env: Env, n: Node, x: Id, stamp: Bytes)
    requires n.group.Some?
    ensures var o := AcknowledgeJoin(env, n, x, Joining, stamp);
            && o.sends == [Sent(JoinAck(stamp, n.group.value.id, n.id, n.pubKey), {x})]
            && o.node.joinToken == n.joinToken && o.node.readyTimers == n.readyTimers
            && o.node.group.Some?
            && o.node.joinTimers == n.joinTimers + (if Beside(o.node, x) then {} else {x})
            && forall t | t != stamp :: SameEntry(n.log, o.node.log, t)
  {
    hide View.AddPeer, View.UpdateNeighbours, Serialize, SameEntry;
    var v := n.group.value.AddPeer(env.key, x).UpdateNeighbours(env.key, n.id);
    assert v.id == n.group.value.id by { IdKept(env.key, n.group.value, x, n.id); }
    LogEffect(n.(peers := n.peers[x := Joining], group := Some(v)), JoinAck(stamp, v.id, n.id, n.pubKey), None);
  }

  /** Logging and crediting change nothing but the log. */
  lemma LogKeepsCoherent(env: Env, n: Node, log: Log)
    requires Coherent(env, n)
    ensures Coherent(env, n.(log := log))
  {
    hide RingsHold, CacheExact, MakeMarker;
    assert OnRings(n.(log := log)) == OnRings(n);
  }

  lemma NoticeIs(pl: Plan, p: Id)
    requires PlanOk(pl) && p in pl.members
    ensures var gid := pl.groupId;
            && pl.notif.JoinNotif? && !pl.notif.channel && pl.notif.groupId == gid && pl.notif.peerId == pl.newcomer
            && pl.notif.marker == MakeMarker(pl.env.h, gid, gid) && pl.newcomer != p && p in pl.acks
            && pl.acks[p].JoinAck? && pl.acks[p].groupId == gid && pl.acks[p].peerId == p
            && pl.notif.stamp != pl.acks[p].stamp
  {
    hide MakeMarker;
    StampsDiffer(pl, p);
  }

  lemma MemberIs(pl: Plan, n: Node, p: Id)
    requires PlanOk(pl) && p in pl.members && MemberOk(pl, n, p)
    ensures Coherent(pl.env, n) && HasOwnMarker(pl.env, n) && OnRings(n) == ViewOf(pl, n)
    ensures n.id == p && n.state == Connected && n.group.value.id == pl.groupId && n.pubKey == pl.acks[p].pubKey
    ensures PeersKnown(n) && NobodyKnown(n.newPeers)
    ensures n.peers.Keys == ViewOf(pl, n) - {p}
  {
    hide CacheExact, RingsHold, MakeMarker, KeysDistinct;
    MemberNeighbours(pl, n, p);
  }

  /** The notification at a member that has not seen it: logged and passed on
      over the old rings. */
  lemma NoticeRelayed(pl: Plan, n: Node, p: Id, q: Id)
    requires PlanOk(pl) && p in pl.members && MemberOk(pl, n, p) && !Told(pl, n) && q in n.peers
    ensures CanReceive(pl.env, n, Member(q), pl.notif, pl.StampsAt(p))
    ensures var o := Relay(n, Member(q), pl.notif);
            && o.sends == [Sent(pl.notif, pl.Graph().Succ(p))]
            && o.node == n.(log := o.node.log) && o.node.log.Logged(pl.notif.stamp)
            && o.node.log.entries[pl.notif.stamp].control == Credit(Zeros(pl.Graph().Pred(p)), q)
            && (forall t | t != pl.notif.stamp :: SameEntry(n.log, o.node.log, t))
            && Receive(pl.env, n, Member(q), pl.notif, pl.StampsAt(p))
               == var acked :=
                    AcknowledgeJoin(pl.env, o.node.(joinToken := false), pl.newcomer, Joining, pl.acks[p].stamp);
                  Outcome(acked.node, o.sends + acked.sends)
  {
    hide MemberOk, PlanOk, Coherent, ViewOf, KeysDistinct, MakeMarker, AcknowledgeJoin, Serialize, Credit, Zeros,
      Graph.Succ, Graph.Pred, LogMessage, SameEntry, OnRings, CacheExact;
    MemberIs(pl, n, p);
    NoticeIs(pl, p);
    MemberNeighbours(pl, n, p);
    LogEffect(n, pl.notif, Some(q));
    LogEffect(LogMessage(n, pl.notif, Some(q)), pl.notif, None);
  }

  lemma CanRelay(env: Env, n: Node, link: Link, m: Msg, st: Stamps)
    requires CanReceive(env, n, link, m, st) && !n.log.Logged(m.stamp)
    ensures LinkOk(n, link) && CanRoute(n, link, m)
  {
  }

  /** Taking the newcomer in, at a member that has just logged its notification. */
  lemma NewcomerTaken(pl: Plan, n: Node, p: Id, log: Log)
    requires PlanOk(pl) && p in pl.members && MemberOk(pl, n, p) && !Told(pl, n) && log.Logged(pl.notif.stamp)
    requires forall t | t != pl.notif.stamp :: SameEntry(n.log, log, t)
    ensures var asked := n.(log := log, joinToken := false);
            var o := AcknowledgeJoin(pl.env, asked, pl.newcomer, Joining, pl.acks[p].stamp);
            && MemberOk(pl, o.node, p) && Told(pl, o.node) && !Done(pl, o.node)
            && o.node.log.entries[pl.notif.stamp] == log.entries[pl.notif.stamp]
            && o.node.readyTimers == n.readyTimers && o.sends == [Sent(pl.acks[p], {pl.newcomer})]
  {
    hide PlanOk, Coherent, Consistent, OnRings, KeysDistinct, AcknowledgeJoin, Plan.Graph, Plan.Everyone;
    var asked := n.(log := log, joinToken := false);
    NoticeIs(pl, p);
    MemberIs(pl, n, p);
    AskedIsCoherent(pl, n, p, log);
    AcknowledgeKeeps(pl.env, asked, pl.newcomer, Joining, pl.acks[p].stamp);
    AcknowledgeEffect(pl.env, asked, pl.newcomer, pl.acks[p].stamp);
    var after := AcknowledgeJoin(pl.env, asked, pl.newcomer, Joining, pl.acks[p].stamp).node;
    assert SameEntry(log, after.log, pl.notif.stamp);
    StampsDiffer(pl, p);
    assert SameEntry(n.log, log, pl.readyNotif.stamp) && SameEntry(log, after.log, pl.readyNotif.stamp);
  }

  lemma AskedIsCoherent(pl: Plan, n: Node, p: Id, log: Log)
    requires PlanOk(pl) && p in pl.members && MemberOk(pl, n, p) && !Told(pl, n)
    ensures var asked := n.(log := log, joinToken := false);
            && Consistent(pl.env, asked) && asked.group.Some? && pl.newcomer != p
            && KeysDistinct(pl.env.key, OnRings(asked) + {pl.newcomer, p})
  {
    hide Coherent, Consistent, MemberOk, PlanOk, KeysDistinct, OnRings;
    var asked := n.(log := log, joinToken := false);
    MemberIs(pl, n, p);
    NewcomerIsNone(pl);
    TokenIsNoTable(pl.env, n, log);
    ViewIsWhole(pl, n, p);
  }

  lemma TokenIsNoTable(env: Env, n: Node, log: Log)
    requires Coherent(env, n)
    ensures var asked := n.(log := log, joinToken := false);
            Consistent(env, asked) && OnRings(asked) == OnRings(n) && (n.state == Connected ==> asked.group.Some?)
  {
    hide RingsHold, CacheExact, MakeMarker;
    assert OnRings(n.(log := log, joinToken := false)) == OnRings(n);
  }

  lemma ViewIsWhole(pl: Plan, n: Node, p: Id)
    requires PlanOk(pl) && p in pl.members
    ensures KeysDistinct(pl.env.key, ViewOf(pl, n) + {pl.newcomer, p}) && pl.newcomer != p
  {
    hide KeysDistinct;
    assert ViewOf(pl, n) + {pl.newcomer, p} == pl.Everyone();
  }

  /** The first copy of the notification at a member: credited, passed on over
      the old rings, and acknowledged once the newcomer is in the new ones. */
  lemma FirstNotice(pl: Plan, n: Node, p: Id, q: Id)
    requires PlanOk(pl) && p in pl.members && MemberOk(pl, n, p) && !Told(pl, n) && q in n.peers
    ensures CanReceive(pl.env, n, Member(q), pl.notif, pl.StampsAt(p))
    ensures var o := Receive(pl.env, n, Member(q), pl.notif, pl.StampsAt(p));
            && MemberOk(pl, o.node, p) && Told(pl, o.node) && !Done(pl, o.node)
            && o.node.log.entries[pl.notif.stamp].control == Credit(Zeros(pl.Graph().Pred(p)), q)
            && o.node.readyTimers == n.readyTimers
            && o.sends == [Sent(pl.notif, pl.Graph().Succ(p)), Sent(pl.acks[p], {pl.newcomer})]
  {
    hide MemberOk, PlanOk, CanReceive, Receive, AcknowledgeJoin, Relay, Credit, Zeros, Graph.Succ, Graph.Pred,
      SameEntry;
    NoticeIs(pl, p);
    NoticeRelayed(pl, n, p, q);
    assert CanRoute(n, Member(q), pl.notif) by { CanRelay(pl.env, n, Member(q), pl.notif, pl.StampsAt(p)); }
    NewcomerTaken(pl, n, p, Relay(n, Member(q), pl.notif).node.log);
  }

  /** A later copy is only credited. */
  lemma LaterNotice(pl: Plan, n: Node, p: Id, q: Id)
    requires PlanOk(pl) && p in pl.members && MemberOk(pl, n, p) && Told(pl, n) && q in n.peers
    ensures CanReceive(pl.env, n, Member(q), pl.notif, pl.StampsAt(p))
    ensures var o := Receive(pl.env, n, Member(q), pl.notif, pl.StampsAt(p));
            && MemberOk(pl, o.node, p) && o.node == n.(log := o.node.log) && o.node.log.Logged(pl.notif.stamp)
            && o.node.log.entries[pl.notif.stamp].control == Credit(n.log.entries[pl.notif.stamp].control, q)
            && o.sends == []
  {
    hide PlanOk, Coherent, OnRings, Credit, Serialize;
    var log := n.log.Ack(pl.notif.stamp, q);
    LogKeepsMember(pl, n, p, log);
  }

  lemma LogKeepsMember(pl: Plan, n: Node, p: Id, log: Log)
    requires PlanOk(pl) && p in pl.members && MemberOk(pl, n, p)
    requires log.Logged(pl.notif.stamp) <==> n.log.Logged(pl.notif.stamp)
    requires log.Logged(pl.readyNotif.stamp) <==> n.log.Logged(pl.readyNotif.stamp)
    ensures MemberOk(pl, n.(log := log), p)
  {
    hide Coherent, PlanOk, Serialize;
    LogKeepsCoherent(pl.env, n, log);
  }

  /** READY sent: only the timer and the log change. */
  lemma ReadySent(pl: Plan, n: Node, p: Id)
    requires PlanOk(pl) && p in pl.members && MemberOk(pl, n, p)
    ensures var o := SendReady(n, pl.newcomer, pl.ready.stamp);
            && MemberOk(pl, o.node, p) && (Told(pl, o.node) <==> Told(pl, n)) && o.node.peers == n.peers
            && SameEntry(n.log, o.node.log, pl.notif.stamp)
            && o.node.readyTimers == n.readyTimers - {pl.newcomer} && o.sends == [Sent(pl.ready, {pl.newcomer})]
  {
    hide Coherent, PlanOk, Serialize, LogMessage, KeysDistinct;
    NoticeIs(pl, p);
    StampsDiffer(pl, p);
    ReadyIs(pl);
    LogEffect(n, pl.ready, None);
    var log := LogMessage(n, pl.ready, None).log;
    assert SameEntry(n.log, log, pl.notif.stamp) && SameEntry(n.log, log, pl.readyNotif.stamp);
    LogKeepsMember(pl, n, p, log);
    assert MemberOk(pl, n.(log := log, readyTimers := n.readyTimers - {pl.newcomer}), p) by {
      ReadyTimersIrrelevant(pl, n.(log := log), p, n.readyTimers - {pl.newcomer});
    }
  }

  lemma ReadyIs(pl: Plan)
    requires PlanOk(pl)
    ensures pl.ready == Ready(pl.ready.stamp) && pl.readyNotif == ReadyNotif(pl.readyNotif.stamp)
    ensures pl.newcomer !in pl.members && pl.entry in pl.members
  {
  }

  lemma ReadyTimersIrrelevant(pl: Plan, n: Node, p: Id, timers: set<Id>)
    requires PlanOk(pl) && p in pl.members && MemberOk(pl, n, p)
    ensures MemberOk(pl, n.(readyTimers := timers), p)
  {
    hide RingsHold, CacheExact, MakeMarker, PlanOk;
    assert OnRings(n.(readyTimers := timers)) == OnRings(n);
  }

  /** The newcomer may be relied on: either way a member learns it, it frees the
      token. */
  function Trusting(pl: Plan, n: Node): Node {
    n.(peers := n.peers[pl.newcomer := Connected], joinTimers := n.joinTimers - {pl.newcomer}, joinToken := true)
  }

  lemma TrustKeepsMember(pl: Plan, n: Node, p: Id, log: Log)
    requires PlanOk(pl) && p in pl.members && MemberOk(pl, n, p) && Told(pl, n)
    requires log.Logged(pl.notif.stamp)
    ensures MemberOk(pl, Trusting(pl, n).(log := log), p) && Done(pl, Trusting(pl, n))
  {
    hide RingsHold, CacheExact, MakeMarker, KeysDistinct, PlanOk;
    ReadyIs(pl);
    var t := Trusting(pl, n).(log := log);
    assert t.peers.Keys == n.peers.Keys;
    assert OnRings(t) == OnRings(n);
  }

  lemma NobodyWaits(env: Env, n: Node, st: Stamps)
    requires NobodyKnown(n.newPeers)
    ensures CanCheck(env, n) && CheckForNewPeers(env, n, st) == Outcome(n.(joinToken := true), [])
  {
  }

  /** The timer expires at a member that is not a neighbour. */
  lemma TimerExpires(pl: Plan, n: Node, p: Id)
    requires PlanOk(pl) && p in pl.members && MemberOk(pl, n, p) && pl.newcomer in n.joinTimers
    ensures Told(pl, n) && !Done(pl, n) && !Beside(n, pl.newcomer)
    ensures CanCheck(pl.env, n.(peers := n.peers[pl.newcomer := Connected], joinTimers := n.joinTimers - {pl.newcomer}))
    ensures var o := CompleteJoin(pl.env, n, pl.newcomer, pl.StampsAt(p));
            o.node == Trusting(pl, n) && o.sends == [] && MemberOk(pl, o.node, p) && Done(pl, o.node)
  {
    hide Coherent, PlanOk, CheckForNewPeers;
    NoticeIs(pl, p);
    TrustKeepsMember(pl, n, p, n.log);
    NobodyWaits(pl.env,
                n.(peers := n.peers[pl.newcomer := Connected], joinTimers := n.joinTimers - {pl.newcomer}),
                pl.StampsAt(p));
  }

  /** READY_NOTIF reaches a member that is a neighbour. */
  lemma NeighbourReady(pl: Plan, n: Node, p: Id)
    requires PlanOk(pl) && p in pl.members && MemberOk(pl, n, p)
    requires Told(pl, n) && !Done(pl, n) && Beside(n, pl.newcomer)
    ensures CanReceive(pl.env, n, Member(pl.newcomer), pl.readyNotif, pl.StampsAt(p))
    ensures var o := Receive(pl.env, n, Member(pl.newcomer), pl.readyNotif, pl.StampsAt(p));
            && o.node == Trusting(pl, n).(log := o.node.log) && SameEntry(n.log, o.node.log, pl.notif.stamp)
            && o.sends == [] && MemberOk(pl, o.node, p) && Done(pl, o.node)
  {
    hide Coherent, PlanOk, CheckForNewPeers, LogMessage, Serialize, KeysDistinct;
    ReadyIs(pl);
    NoticeIs(pl, p);
    StampsDiffer(pl, p);
    var link, st := Member(pl.newcomer), pl.StampsAt(p);
    LogEffect(n, pl.readyNotif, Some(pl.newcomer));
    var log := LogMessage(n, pl.readyNotif, Some(pl.newcomer)).log;
    assert SameEntry(n.log, log, pl.notif.stamp);
    TrustKeepsMember(pl, n, p, log);
    NobodyWaits(pl.env, Seen(n, link), st);
    NobodyWaits(pl.env, Seen(n.(log := log), link), st);
    assert n.joinTimers - {pl.newcomer} == n.joinTimers;
  }

  // ------------------------------------------------------- the newcomer

  /** The newcomer's neighbours, once it has taken its place. */
  ghost function Nearest(pl: Plan): set<Id> {
    Succs(pl.env.key, pl.Everyone(), pl.newcomer) + Preds(pl.env.key, pl.Everyone(), pl.newcomer)
  }

  lemma NearestAreMembers(pl: Plan)
    ensures Nearest(pl) <= pl.members
  {
  }

  /** A member waits for READY_NOTIF exactly when the newcomer will send it one. */
  lemma BesideIsMutual(pl: Plan, n: Node, p: Id)
    requires PlanOk(pl) && p in pl.members && MemberOk(pl, n, p) && Told(pl, n)
    ensures Beside(n, pl.newcomer) <==> p in Nearest(pl)
  {
    hide RingsHold, MakeMarker, KeysDistinct, Succs, Preds;
    MemberNeighbours(pl, n, p);
    NeighboursAreMutual(pl.env.key, pl.Everyone(), p, pl.newcomer);
  }

  /** A connection from p. */
  lemma AcceptKeepsNewcomer(pl: Plan, n: Node, p: Id)
    requires PlanOk(pl) && p in pl.members && NewcomerOk(pl, n)
    ensures NewcomerOk(pl, Accept(n, pl.addresses[p]))
  {
    hide RingsHold, CacheExact, MakeMarker, KeysDistinct, PlanOk;
    NewcomerIsNone(pl);
    assert OnRings(Accept(n, pl.addresses[p])) == OnRings(n);
  }

  lemma NewcomerIs(pl: Plan, n: Node)
    requires PlanOk(pl) && NewcomerOk(pl, n)
    ensures n.id == pl.newcomer && Coherent(pl.env, n) && MarkerFree(pl.env, n, pl.groupId)
    ensures n.peers.Keys <= pl.members && (n.group.Some? ==> n.group.value.id == pl.groupId)
    ensures PeersKnown(n) && NobodyKnown(n.newPeers)
  {
    hide PlanOk, Coherent, MarkerFree;
  }

  /** The newcomer, with the group the acknowledgement names. */
  function Based(pl: Plan, n: Node): (b: Node)
    ensures b.group.Some?
  {
    if n.group.Some? then n
    else n.(group := Some(EmptyView(pl.groupId)), markers := WithMarker(pl.env, n.markers, pl.groupId))
  }

  /** What the newcomer becomes by p's acknowledgement, the log aside. */
  function Acquainted(pl: Plan, n: Node, p: Id): (a: Node)
    requires p in pl.addresses
    ensures a.group.Some?
  {
    var b := Based(pl, n);
    b.(newPeers := b.newPeers - {pl.addresses[p]},
       peers := b.peers[p := Connected],
       group := Some(b.group.value.AddPeer(pl.env.key, p)))
  }

  lemma BasedIsCoherent(pl: Plan, n: Node)
    requires PlanOk(pl) && NewcomerOk(pl, n)
    ensures var b := Based(pl, n); Coherent(pl.env, b) && b.group.value.id == pl.groupId && OnRings(b) == OnRings(n)
  {
    hide RingsHold, CacheExact, KeysDistinct, MakeMarker, PlanOk;
    NewcomerIs(pl, n);
    if n.group.None? {
      EmptyViewHolds(pl.env.key, pl.groupId);
      OffRing(pl.env.key, {}, n.id);
      assert OnRings(Based(pl, n)) == {};
    }
  }

  lemma AcquaintedIsCoherent(pl: Plan, n: Node, p: Id)
    requires PlanOk(pl) && p in pl.members && NewcomerOk(pl, n) && n.state != Connected && p in pl.addresses
    ensures var a := Acquainted(pl, n, p); Coherent(pl.env, a) && a.group.value.id == pl.groupId
  {
    hide KeysDistinct, View.AddPeer, MakeMarker, Coherent, NewcomerOk;
    var b := Based(pl, n);
    NewcomerIs(pl, n);
    BasedIsCoherent(pl, n);
    FewerKeysDistinct(pl.env.key, OnRings(b) + {p}, pl.Everyone());
    JoinAckKeeps(pl.env, b, p);
    IdKept(pl.env.key, b.group.value, p, p);
    CoherentWithout(pl.env, b.(peers := b.peers[p := Connected], group := Some(b.group.value.AddPeer(pl.env.key, p))),
                    b.newPeers - {pl.addresses[p]});
  }

  lemma CoherentWithout(env: Env, n: Node, newPeers: map<Address, Pending>)
    requires Coherent(env, n)
    ensures Coherent(env, n.(newPeers := newPeers))
  {
    hide RingsHold, CacheExact, MakeMarker;
    assert OnRings(n.(newPeers := newPeers)) == OnRings(n);
  }

  /** p's acknowledgement reaches the newcomer over the connection p opened. */
  lemma AckArrives(pl: Plan, n: Node, p: Id)
    requires PlanOk(pl) && p in pl.members && NewcomerOk(pl, n) && p !in n.peers && pl.addresses[p] in n.newPeers
    ensures CanReceive(pl.env, n, Unsorted(pl.addresses[p]), pl.acks[p], pl.StampsAt(pl.newcomer))
    ensures var o := Receive(pl.env, n, Unsorted(pl.addresses[p]), pl.acks[p], pl.StampsAt(pl.newcomer));
            && NewcomerOk(pl, o.node) && o.node.peers == n.peers[p := Connected] && o.node.state == n.state
            && o.node.newPeers == n.newPeers - {pl.addresses[p]}
            && SameEntry(n.log, o.node.log, pl.notif.stamp) && o.sends == []
  {
    hide NewcomerOk, Acquainted, LogMessage, PlanOk, SameEntry, Receive, CanReceive;
    NoticeIs(pl, p);
    NewcomerIsNone(pl);
    AckProcessed(pl, n, p);
    LogEffect(Acquainted(pl, n, p), pl.acks[p], Some(p));
    var log := LogMessage(Acquainted(pl, n, p), pl.acks[p], Some(p)).log;
    LogKeepsOthers(pl, n.log, log, p);
    AcquaintedIs(pl, n, p);
    AcquaintedIsOk(pl, n, p, log);
  }

  lemma AcquaintedIsOk(pl: Plan, n: Node, p: Id, log: Log)
    requires PlanOk(pl) && p in pl.members && NewcomerOk(pl, n) && n.state != Connected && p in pl.addresses
    requires log.Logged(pl.acks[p].stamp) && forall t | t != pl.acks[p].stamp :: SameEntry(n.log, log, t)
    ensures NewcomerOk(pl, Acquainted(pl, n, p).(log := log))
  {
    hide Coherent, Acquainted, MarkerFree, PlanOk, SameEntry;
    NoticeIs(pl, p);
    NewcomerIsNone(pl);
    AcquaintedIsCoherent(pl, n, p);
    LogKeepsCoherent(pl.env, Acquainted(pl, n, p), log);
    LogKeepsOthers(pl, n.log, log, p);
    AcquaintedIs(pl, n, p);
    GroupIsNotMarker(pl, Acquainted(pl, n, p), Acquainted(pl, n, p).(log := log));
  }

  lemma AcquaintedIs(pl: Plan, n: Node, p: Id)
    requires p in pl.addresses
    ensures var a := Acquainted(pl, n, p);
            && a == n.(group := a.group, markers := a.markers, peers := n.peers[p := Connected],
                       newPeers := n.newPeers - {pl.addresses[p]})
            && (MarkerFree(pl.env, n, pl.groupId) ==> MarkerFree(pl.env, a, pl.groupId))
  {
    hide MakeMarker, View.AddPeer;
  }

  /** What handling the acknowledgement comes to. */
  lemma AckProcessed(pl: Plan, n: Node, p: Id)
    requires PlanOk(pl) && p in pl.members && NewcomerOk(pl, n) && p !in n.peers
    requires p in pl.addresses && pl.addresses[p] in n.newPeers && p in pl.acks
    ensures CanReceive(pl.env, n, Unsorted(pl.addresses[p]), pl.acks[p], pl.StampsAt(pl.newcomer))
    ensures var a := Acquainted(pl, n, p);
            && !n.log.Logged(pl.acks[p].stamp) && n.state != Connected && a.log == n.log
            && Receive(pl.env, n, Unsorted(pl.addresses[p]), pl.acks[p], pl.StampsAt(pl.newcomer))
               == Outcome(LogMessage(a, pl.acks[p], Some(p)), [])
  {
    hide Coherent, View.AddPeer, MakeMarker, LogMessage, PlanOk, Serialize;
    NoticeIs(pl, p);
    NewcomerIsNone(pl);
  }

  lemma LogKeepsOthers(pl: Plan, log: Log, after: Log, p: Id)
    requires PlanOk(pl) && p in pl.members
    requires after.Logged(pl.acks[p].stamp) && forall t | t != pl.acks[p].stamp :: SameEntry(log, after, t)
    ensures SameEntry(log, after, pl.notif.stamp) && SameEntry(log, after, pl.ready.stamp)
    ensures log.Logged(pl.ready.stamp) <==> after.Logged(pl.ready.stamp)
    ensures log.Logged(pl.notif.stamp) <==> after.Logged(pl.notif.stamp)
    ensures forall q | q in pl.members :: after.Logged(pl.acks[q].stamp) <==> q == p || log.Logged(pl.acks[q].stamp)
  {
    hide PlanOk;
    NewcomerIsNone(pl);
    StampsDiffer(pl, p);
    forall q | q in pl.members && q != p
      ensures after.Logged(pl.acks[q].stamp) <==> log.Logged(pl.acks[q].stamp)
    {
      assert SameEntry(log, after, pl.acks[q].stamp);
    }
  }

  lemma NewcomerIsNone(pl: Plan)
    requires PlanOk(pl)
    ensures pl.newcomer !in pl.members && pl.acks.Keys == pl.members && pl.addresses.Keys == pl.Everyone()
    ensures pl.entry in pl.members
  {
  }

  /** The place the newcomer takes, and whom it tells. */
  lemma PlaceTaken(pl: Plan, n: Node)
    requires PlanOk(pl) && n.id == pl.newcomer && Coherent(pl.env, n)
    requires n.state != Connected && n.peers.Keys == pl.members
    ensures n.group.Some?
    ensures var v := n.group.value.AddToRings(pl.env.key, n.id).UpdateNeighbours(pl.env.key, n.id);
            Coherent(pl.env, n.(state := Connected, group := Some(v))) && v.id == n.group.value.id
            && v.predecessors + v.successors == Nearest(pl)
  {
    hide CacheExact, RingsHold, KeysDistinct, View.AddToRings, View.UpdateNeighbours, MakeMarker, Succs, Preds;
    assert pl.entry in n.peers.Keys;
    assert OnRings(n) == pl.members;
    assert OnRings(n) + {n.id} == pl.Everyone();
    var v := n.group.value.AddToRings(pl.env.key, n.id).UpdateNeighbours(pl.env.key, n.id);
    TakePlace(pl.env.key, n.group.value, OnRings(n), n.id);
    ReadyKeeps(pl.env, n, Stamps([], [], []));
    ExactIs(pl.env.key, v, pl.Everyone(), pl.newcomer);
  }

  lemma ExactIs(key: RingKeys, v: View, members: set<Id>, p: Id)
    requires CacheExact(key, v, members, p)
    ensures v.successors == Succs(key, members, p) && v.predecessors == Preds(key, members, p)
  {
  }

  /** READY reaches the newcomer, which knows everyone: it takes its place and
      tells its neighbours. */
  lemma ReadyArrives(pl: Plan, n: Node, q: Id)
    requires PlanOk(pl) && NewcomerOk(pl, n) && n.state != Connected && n.peers.Keys == pl.members && q in pl.members
    ensures CanReceive(pl.env, n, Member(q), pl.ready, pl.StampsAt(pl.newcomer))
    ensures var o := Receive(pl.env, n, Member(q), pl.ready, pl.StampsAt(pl.newcomer));
            && NewcomerOk(pl, o.node) && o.node.peers == n.peers && o.node.state == Connected
            && SameEntry(n.log, o.node.log, pl.notif.stamp)
            && o.sends == [Sent(pl.readyNotif, Nearest(pl))]
  {
    hide NewcomerOk, Coherent, View.AddToRings, View.UpdateNeighbours, LogMessage, PlanOk, Serialize, Nearest,
      SameEntry;
    ReadyIs(pl);
    StampsDiffer(pl, q);
    NewcomerIsNone(pl);
    NewcomerIs(pl, n);
    NewcomerStamps(pl, n);
    var st := pl.StampsAt(pl.newcomer);
    LogEffect(n, pl.ready, Some(q));
    var log := LogMessage(n, pl.ready, Some(q)).log;
    var heard := n.(log := log);
    LogKeepsCoherent(pl.env, n, log);
    PlaceTaken(pl, heard);
    var v := heard.group.value.AddToRings(pl.env.key, n.id).UpdateNeighbours(pl.env.key, n.id);
    var placed := heard.(state := Connected, group := Some(v));
    LogEffect(placed, pl.readyNotif, None);
    var last := LogMessage(placed, pl.readyNotif, None).log;
    assert Receive(pl.env, n, Member(q), pl.ready, st)
           == Outcome(placed.(log := last), [Sent(pl.readyNotif, Nearest(pl))]);
    ReadyLogs(pl, n.log, log, last, q);
    PlacedIsOk(pl, n, v, last);
  }

  lemma NewcomerStamps(pl: Plan, n: Node)
    requires pl.acks.Keys == pl.members && NewcomerOk(pl, n)
    ensures n.state != Connected ==> !n.log.Logged(pl.ready.stamp)
    ensures forall p | p in n.peers :: n.peers[p] != New
  {
  }

  lemma ReadyLogs(pl: Plan, a: Log, b: Log, c: Log, q: Id)
    requires PlanOk(pl) && q in pl.members && b.Logged(pl.ready.stamp)
    requires forall t | t != pl.ready.stamp :: SameEntry(a, b, t)
    requires forall t | t != pl.readyNotif.stamp :: SameEntry(b, c, t)
    ensures SameEntry(a, c, pl.notif.stamp) && c.Logged(pl.ready.stamp)
    ensures pl.acks.Keys == pl.members && forall p | p in pl.members :: SameEntry(a, c, pl.acks[p].stamp)
  {
    hide PlanOk;
    NewcomerIsNone(pl);
    StampsDiffer(pl, q);
    forall p | p in pl.members
      ensures SameEntry(a, c, pl.acks[p].stamp)
    {
      StampsDiffer(pl, p);
      assert SameEntry(a, b, pl.acks[p].stamp) && SameEntry(b, c, pl.acks[p].stamp);
    }
    assert SameEntry(a, b, pl.notif.stamp) && SameEntry(b, c, pl.notif.stamp);
    assert SameEntry(b, c, pl.ready.stamp);
  }

  lemma PlacedIsOk(pl: Plan, n: Node, v: View, log: Log)
    requires PlanOk(pl) && NewcomerOk(pl, n) && n.state != Connected && n.peers.Keys == pl.members
    requires n.group.Some? && v == n.group.value.AddToRings(pl.env.key, n.id).UpdateNeighbours(pl.env.key, n.id)
    requires SameEntry(n.log, log, pl.notif.stamp) && log.Logged(pl.ready.stamp)
    requires forall p | p in pl.members :: p in pl.acks && SameEntry(n.log, log, pl.acks[p].stamp)
    ensures NewcomerOk(pl, n.(state := Connected, group := Some(v), log := log))
  {
    hide Coherent, MarkerFree, PlanOk, View.AddToRings, View.UpdateNeighbours, Nearest;
    NewcomerIsNone(pl);
    PlaceTaken(pl, n);
    var placed := n.(state := Connected, group := Some(v));
    LogKeepsCoherent(pl.env, placed, log);
    GroupIsNotMarker(pl, n, placed.(log := log));
  }

  lemma GroupIsNotMarker(pl: Plan, n: Node, m: Node)
    requires m.markers == n.markers
    ensures MarkerFree(pl.env, n, pl.groupId) <==> MarkerFree(pl.env, m, pl.groupId)
  {
  }
}
