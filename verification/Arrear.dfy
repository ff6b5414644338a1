/** Members that fall behind: a join goes on as it would by itself while some
    members do not rely on earlier newcomers yet, and while others ask. */
module Arrears {
  import opened Bytes
  import opened Rings
  import opened Groups
  import opened Messages
  import opened Logs
  import opened Nodes
  import opened Invariants
  import opened Floods
  import opened Systems
  import opened Joins
  import opened JoinWorlds
  import Admissions

  // ------------------------------------------ a node without its arrears

  /** Earlier newcomers than x that this member does not rely on yet. */
  function Owed(x: Id, n: Node): set<Id> {
    set q | q in n.peers && n.peers[q] == Joining && q != x
  }

  function Blank(newPeers: map<Address, Pending>): map<Address, Pending> {
    map a | a in newPeers && newPeers[a].state == New :: newPeers[a]
  }

  /** The node as it would be if x were the only newcomer it had to do with:
      relying on all earlier ones, and asked by nobody. */
  function Paid(x: Id, n: Node): Node {
    n.(peers := map q | q in n.peers :: if q == x then n.peers[q] else Connected,
       newPeers := Blank(n.newPeers),
       joinToken := x !in n.peers || n.peers[x] != Joining,
       joinTimers := n.joinTimers * {x})
  }

  /** What a step of x's join leaves of a member's arrears: everything. */
  ghost predicate SameArrears(x: Id, n: Node, after: Node) {
    && n.peers.Keys - {x} == after.peers.Keys - {x} && n.peers.Keys <= after.peers.Keys
    && (forall q | q in n.peers && q != x :: after.peers[q] == n.peers[q])
    && PeersKnown(after) && after.joinTimers - {x} == n.joinTimers - {x} && after.newPeers == n.newPeers
    && (after.joinToken == (x !in after.peers || after.peers[x] != Joining)
        || (after.joinToken == n.joinToken && after.peers == n.peers))
  }

  /** Between the two, only entries under these stamps were made or changed. */
  ghost predicate Elsewhere(a: Log, b: Log, stamps: set<Bytes>) {
    forall t | t !in stamps :: SameEntry(a, b, t)
  }

  lemma Further(a: Log, b: Log, c: Log, first: set<Bytes>, later: set<Bytes>)
    requires Elsewhere(a, b, first) && Elsewhere(b, c, later)
    ensures Elsewhere(a, c, first + later)
  {
    forall t | t !in first + later
      ensures SameEntry(a, c, t)
    {
      assert SameEntry(a, b, t) && SameEntry(b, c, t);
    }
  }

  lemma LogsAlike(n: Node, like: Node, m: Msg, from: Option<Id>)
    requires like == n.(peers := like.peers, newPeers := like.newPeers, joinToken := like.joinToken,
                        joinTimers := like.joinTimers)
    requires m.IsBroadcast() && !n.log.Logged(m.stamp) ==> Routable(n, m.marker)
    ensures LogMessage(like, m, from) == like.(log := LogMessage(n, m, from).log)
  {
    hide Serialize, Zeros;
  }

  /** The view with x in it. */
  function With(env: Env, n: Node, x: Id): View
    requires n.group.Some?
  {
    n.group.value.AddPeer(env.key, x).UpdateNeighbours(env.key, n.id)
  }

  lemma AcknowledgeIs(env: Env, n: Node, x: Id, stamp: Bytes)
    requires n.group.Some?
    ensures var v := With(env, n, x); var ack := JoinAck(stamp, v.id, n.id, n.pubKey);
            var taken := n.(peers := n.peers[x := Joining], group := Some(v));
            && AcknowledgeJoin(env, n, x, Joining, stamp)
               == Outcome(LogMessage(taken, ack, None).(
                            joinTimers := n.joinTimers + if x in v.predecessors + v.successors then {} else {x}),
                          [Sent(ack, {x})])
            && Elsewhere(n.log, LogMessage(taken, ack, None).log, {stamp})
  {
    hide View.AddPeer, View.UpdateNeighbours, LogMessage, SameEntry;
    var v := With(env, n, x);
    LogEffect(n.(peers := n.peers[x := Joining], group := Some(v)), JoinAck(stamp, v.id, n.id, n.pubKey), None);
  }

  lemma TakenIn(x: Id, n: Node, v: View, log: Log, timers: set<Id>)
    requires PeersKnown(n) && timers <= {x}
    ensures var after := n.(peers := n.peers[x := Joining], group := Some(v), joinToken := false, log := log,
                            joinTimers := n.joinTimers + timers);
            && Paid(x, after) == Paid(x, n).(peers := Paid(x, n).peers[x := Joining], group := Some(v),
                                             joinToken := false, log := log,
                                             joinTimers := Paid(x, n).joinTimers + timers)
            && SameArrears(x, n, after)
  {
    var after := n.(peers := n.peers[x := Joining], group := Some(v), joinToken := false, log := log,
                    joinTimers := n.joinTimers + timers);
    assert Paid(x, after).peers == Paid(x, n).peers[x := Joining];
    assert Paid(x, after).joinTimers == Paid(x, n).joinTimers + timers;
  }

  lemma AcknowledgesAlike(env: Env, x: Id, n: Node, stamp: Bytes)
    requires n.group.Some? && PeersKnown(n)
    ensures var o := AcknowledgeJoin(env, n.(joinToken := false), x, Joining, stamp);
            && AcknowledgeJoin(env, Paid(x, n).(joinToken := false), x, Joining, stamp)
               == Outcome(Paid(x, o.node), o.sends)
            && SameArrears(x, n, o.node)
            && Elsewhere(n.log, o.node.log, {stamp})
  {
    hide AcknowledgeJoin, With, LogMessage, SameEntry, SameArrears, Blank;
    var v := With(env, n, x);
    var ack := JoinAck(stamp, v.id, n.id, n.pubKey);
    var a, b := n.(joinToken := false), Paid(x, n).(joinToken := false);
    AcknowledgeIs(env, a, x, stamp);
    AcknowledgeIs(env, b, x, stamp);
    assert With(env, b, x) == v && With(env, a, x) == v by { SameGroup(env, a, n, x); SameGroup(env, b, n, x); }
    var taken := a.(peers := a.peers[x := Joining], group := Some(v));
    LogsAlike(taken, b.(peers := b.peers[x := Joining], group := Some(v)), ack, None);
    var log := LogMessage(taken, ack, None).log;
    TakenIn(x, n, v, log, if x in v.predecessors + v.successors then {} else {x});
  }

  lemma SameGroup(env: Env, a: Node, b: Node, x: Id)
    requires a.group.Some? && a.group == b.group && a.id == b.id
    ensures With(env, a, x) == With(env, b, x)
  {
  }

  /** The notification for x, first copy or later one. */
  lemma NoticeCommutes(env: Env, x: Id, n: Node, q: Id, m: Msg, st: Stamps)
    requires PeersKnown(n) && q in n.peers && m.JoinNotif? && m.peerId == x
    requires CanReceive(env, Paid(x, n), Member(q), m, st)
    ensures CanReceive(env, n, Member(q), m, st)
    ensures var o := Receive(env, n, Member(q), m, st);
            && Receive(env, Paid(x, n), Member(q), m, st) == Outcome(Paid(x, o.node), o.sends)
            && SameArrears(x, n, o.node)
            && Elsewhere(n.log, o.node.log, {m.stamp, st.first})
  {
    hide LogMessage, AcknowledgeJoin, Elsewhere, Serialize, SameArrears, Paid, PeersKnown;
    PaidIs(x, n);
    assert {m.stamp} + {st.first} == {m.stamp, st.first};
    if !n.log.Logged(m.stamp) {
      RelaysAlike(x, n, q, m);
      var told := Relay(n, Member(q), m).node;
      LogKeepsArrears(x, n, told.log);
      if Admits(n, m) {
        AcknowledgesAlike(env, x, told, st.first);
        var acked := AcknowledgeJoin(env, told.(joinToken := false), x, Joining, st.first);
        SameArrearsThen(x, n, told.log, acked.node);
        Further(n.log, told.log, acked.node.log, {m.stamp}, {st.first});
      } else {
        Wider(n.log, told.log, {m.stamp}, {st.first});
      }
    } else {
      CreditsOne(n, m, q);
      LogKeepsArrears(x, n, n.log.Ack(m.stamp, q));
      Wider(n.log, n.log.Ack(m.stamp, q), {m.stamp}, {st.first});
    }
  }

  /** Logged, credited and passed on alike. */
  lemma RelaysAlike(x: Id, n: Node, q: Id, m: Msg)
    requires PeersKnown(n) && q in n.peers && q in Paid(x, n).peers && !n.log.Logged(m.stamp)
    requires CanRoute(Paid(x, n), Member(q), m)
    ensures CanRoute(n, Member(q), m)
    ensures var o := Relay(n, Member(q), m);
            && Relay(Paid(x, n), Member(q), m) == Outcome(Paid(x, n).(log := o.node.log), o.sends)
            && Elsewhere(n.log, o.node.log, {m.stamp}) && o.node.log.Logged(m.stamp)
  {
    hide LogMessage, SameEntry, Serialize;
    LogsAlike(n, Paid(x, n), m, Some(q));
    LogEffect(n, m, Some(q));
    var credited := LogMessage(n, m, Some(q));
    LogsAlike(credited, Paid(x, credited), m, None);
    LogEffect(credited, m, None);
    assert Elsewhere(n.log, credited.log, {m.stamp});
    assert credited.log.Logged(m.stamp);
  }

  lemma LogKeepsArrears(x: Id, n: Node, log: Log)
    requires PeersKnown(n)
    ensures SameArrears(x, n, n.(log := log)) && Paid(x, n.(log := log)) == Paid(x, n).(log := log)
    ensures PeersKnown(n.(log := log))
  {
  }

  lemma SameArrearsThen(x: Id, n: Node, log: Log, after: Node)
    requires SameArrears(x, n.(log := log), after)
    ensures SameArrears(x, n, after)
  {
  }

  lemma Wider(a: Log, b: Log, stamps: set<Bytes>, more: set<Bytes>)
    requires Elsewhere(a, b, stamps)
    ensures Elsewhere(a, b, stamps + more)
  {
    hide SameEntry;
  }

  lemma CreditsOne(n: Node, m: Msg, q: Id)
    requires n.log.Logged(m.stamp)
    ensures Elsewhere(n.log, n.log.Ack(m.stamp, q), {m.stamp})
  {
    hide Credit;
  }

  /** READY_NOTIF from y, or its timer, at a node nobody asks anything of. */
  function Relying(n: Node, y: Id, log: Log, joinTimers: set<Id>): Node {
    n.(peers := n.peers[y := Connected], joinToken := true, log := log, joinTimers := joinTimers)
  }

  lemma Notified(env: Env, n: Node, y: Id, m: Msg, st: Stamps)
    requires PeersKnown(n) && y in n.peers && m.ReadyNotif? && !n.log.Logged(m.stamp) && NobodyKnown(n.newPeers)
    ensures CanReceive(env, n, Member(y), m, st)
    ensures var log := LogMessage(n, m, Some(y)).log;
            && Receive(env, n, Member(y), m, st) == Outcome(Relying(n, y, log, n.joinTimers), [])
            && Elsewhere(n.log, log, {m.stamp})
  {
    hide LogMessage, CheckForNewPeers, CanCheck, SameEntry;
    LogEffect(n, m, Some(y));
    var log := LogMessage(n, m, Some(y)).log;
    NobodyWaits(env, Seen(n, Member(y)), st);
    NobodyWaits(env, Seen(n.(log := log), Member(y)), st);
  }

  lemma TimedOut(env: Env, n: Node, y: Id, st: Stamps)
    requires y in n.peers && NobodyKnown(n.newPeers)
    ensures CanCheck(env, n.(peers := n.peers[y := Connected], joinTimers := n.joinTimers - {y})) && CanCheck(env, n)
    ensures CompleteJoin(env, n, y, st) == Outcome(Relying(n, y, n.log, n.joinTimers - {y}), [])
  {
    hide CheckForNewPeers, CanCheck;
    NobodyWaits(env, n, st);
    NobodyWaits(env, n.(peers := n.peers[y := Connected], joinTimers := n.joinTimers - {y}), st);
  }

  lemma SentReady(n: Node, x: Id, stamp: Bytes)
    ensures var o := SendReady(n, x, stamp);
            && o == Outcome(n.(log := o.node.log, readyTimers := n.readyTimers - {x}), [Sent(Ready(stamp), {x})])
            && Elsewhere(n.log, o.node.log, {stamp})
  {
    hide LogMessage, SameEntry;
    LogEffect(n, Ready(stamp), None);
  }

  /** Relying on x is a step of x's join. */
  lemma ReliesOnNewcomer(x: Id, n: Node, log: Log)
    requires PeersKnown(n) && x in n.peers
    ensures Paid(x, Relying(n, x, log, n.joinTimers)) == Relying(Paid(x, n), x, log, Paid(x, n).joinTimers)
    ensures Paid(x, Relying(n, x, log, n.joinTimers - {x})) == Relying(Paid(x, n), x, log, Paid(x, n).joinTimers - {x})
    ensures SameArrears(x, n, Relying(n, x, log, n.joinTimers))
    ensures SameArrears(x, n, Relying(n, x, log, n.joinTimers - {x}))
  {
    assert Paid(x, Relying(n, x, log, {})).peers == Paid(x, n).peers[x := Connected];
    assert (n.joinTimers - {x}) * {x} == n.joinTimers * {x} - {x};
  }

  /** Relying on anybody else settles a debt, which x's join does not see. */
  lemma ReliesOnOther(x: Id, n: Node, y: Id, log: Log, joinTimers: set<Id>)
    requires PeersKnown(n) && y in Owed(x, n) && (joinTimers == n.joinTimers || joinTimers == n.joinTimers - {y})
    ensures var after := Relying(n, y, log, joinTimers);
            && Paid(x, after) == Paid(x, n).(log := log) && PeersKnown(after) && Owed(x, after) == Owed(x, n) - {y}
  {
    assert Paid(x, Relying(n, y, log, joinTimers)).peers == Paid(x, n).peers;
  }

  lemma PaidIs(x: Id, n: Node)
    requires PeersKnown(n)
    ensures var s := Paid(x, n);
            && s.peers.Keys == n.peers.Keys && s.log == n.log && s.id == n.id && s.group == n.group
            && s.markers == n.markers && s.state == n.state && s.readyTimers == n.readyTimers && s.pubKey == n.pubKey
            && NobodyKnown(s.newPeers) && PeersKnown(s)
            && (x in s.joinTimers <==> x in n.joinTimers)
            && (x in n.peers ==> s.peers[x] == n.peers[x])
  {
  }

  // ----------------------------------------- a world without its arrears

  ghost function PaidNodes(pl: Plan, nodes: map<Id, Node>): map<Id, Node> {
    map p | p in nodes :: if p == pl.newcomer then nodes[p] else Paid(pl.newcomer, nodes[p])
  }

  ghost function OnlyPlanned(pl: Plan, net: Net): Net {
    map m | m in net && Planned(pl, m) :: net[m]
  }

  /** The join of pl, as if all earlier ones were over and nobody waited. */
  ghost function PaidWorld(pl: Plan, w: World): World {
    World(PaidNodes(pl, w.nodes), OnlyPlanned(pl, w.net))
  }

  lemma PlannedTraffic(pl: Plan, net: Net, m: Msg)
    ensures TrafficOf(OnlyPlanned(pl, net), m) == if Planned(pl, m) then TrafficOf(net, m) else Traffic(multiset{}, 0)
    ensures m in OnlyPlanned(pl, net) <==> m in net && Planned(pl, m)
  {
  }

  lemma TakesPlanned(pl: Plan, net: Net, m: Msg, e: Edge)
    requires m in net && Planned(pl, m)
    ensures m in OnlyPlanned(pl, net) && OnlyPlanned(pl, Take(net, m, e)) == Take(OnlyPlanned(pl, net), m, e)
    ensures forall o | !Planned(pl, o) :: TrafficOf(Take(net, m, e), o) == TrafficOf(net, o)
  {
  }

  lemma {:induction false} PostsPlanned(pl: Plan, net: Net, p: Id, sends: seq<Sent>)
    requires forall s | s in sends :: Planned(pl, s.message)
    ensures OnlyPlanned(pl, PostAll(net, p, sends)) == PostAll(OnlyPlanned(pl, net), p, sends)
    ensures forall o | !Planned(pl, o) :: TrafficOf(PostAll(net, p, sends), o) == TrafficOf(net, o)
    decreases |sends|
  {
    hide Planned, Fan;
    if sends != [] {
      var s := sends[0];
      assert s in sends && forall r | r in sends[1..] :: r in sends;
      assert OnlyPlanned(pl, PostOne(net, p, s)) == PostOne(OnlyPlanned(pl, net), p, s);
      PostsPlanned(pl, PostOne(net, p, s), p, sends[1..]);
    }
  }

  /** A member's arrears: whoever it owes has joined before, and either a timer
      or that one's READY_NOTIF, not logged yet, will settle it. */
  ghost predicate Lagging(x: Id, past: map<Id, Msg>, n: Node) {
    && PeersKnown(n) && Owed(x, n) <= past.Keys && n.joinTimers - {x} <= Owed(x, n)
    && (forall y | y in Owed(x, n) && y in past && y !in n.joinTimers :: !n.log.Logged(past[y].stamp))
    && (!n.joinToken ==> Admissions.Underway(n) != {})
  }

  /** The members that wait for y's READY_NOTIF. */
  ghost function Expecting(x: Id, members: set<Id>, nodes: map<Id, Node>, y: Id): set<Id>
    requires members <= nodes.Keys
  {
    set p | p in members && y in Owed(x, nodes[p]) && y !in nodes[p].joinTimers
  }

  /** Everyone's arrears, and the notices in flight are those expected. */
  ghost predicate ArrearsOk(x: Id, members: set<Id>, past: map<Id, Msg>, w: World)
    requires members <= w.nodes.Keys
  {
    && past.Keys <= members && (forall p | p in members :: Lagging(x, past, w.nodes[p]))
    && (forall y | y in past ::
      past[y].ReadyNotif? && TrafficOf(w.net, past[y]).copies == multiset(Fan(y, Expecting(x, members, w.nodes, y))))
    && (forall y, z | y in past && z in past && y != z :: past[y].stamp != past[z].stamp)
  }

  /** The entry point owes nobody but x, its token is free exactly when x is
      relied on, and then nobody waits. */
  ghost predicate EntryOk(x: Id, n: Node) {
    && Owed(x, n) == {} && n.joinToken == (x !in n.peers || n.peers[x] != Joining)
    && (n.joinToken ==> NobodyKnown(n.newPeers)) && Admissions.Orderly(n) && n.id !in Admissions.Waiting(n)
  }

  /** Stamps of earlier notices are not those of this join. */
  ghost predicate StampsApart(pl: Plan, past: map<Id, Msg>) {
    forall m, y | Planned(pl, m) && y in past :: m.stamp != past[y].stamp
  }

  /** Nothing else is in flight. */
  ghost predicate NoStrays(pl: Plan, past: map<Id, Msg>, net: Net) {
    forall m :: TrafficOf(net, m).copies != multiset{} ==> Planned(pl, m) || m in past.Values
  }

  /** A join under way, and the READY_NOTIF of every newcomer before. */
  datatype Stage = Stage(plan: Plan, past: map<Id, Msg>, world: World)

  ghost predicate InOrder(s: Stage) {
    var pl, w := s.plan, s.world;
    && JoinInv(pl, PaidWorld(pl, w)) && w.nodes.Keys == pl.Everyone()
    && ArrearsOk(pl.newcomer, pl.members, s.past, w)
    && EntryOk(pl.newcomer, w.nodes[pl.entry])
    && (forall p | p in pl.members && p != pl.entry :: NobodyKnown(w.nodes[p].newPeers))
    && StampsApart(pl, s.past) && NoStrays(pl, s.past, w.net)
    && (w.nodes[pl.newcomer].state == Connected ==> TrafficOf(w.net, pl.notif).copies == multiset{})
  }

  // -------------------------------------------------- the join goes on

  /** This step lets the entry point rely on the newcomer while others wait. */
  ghost predicate HandsOn(s: Stage, step: Step)
    requires s.plan.entry in s.world.nodes
  {
    (step == JoinDue(s.plan.entry) || IsNotice(s.plan, step, s.plan.entry))
    && !NobodyKnown(s.world.nodes[s.plan.entry].newPeers)
  }

  /** What a step of this join leaves of the arrears. */
  ghost predicate Undisturbed(pl: Plan, past: map<Id, Msg>, w: World, after: World) {
    && after.nodes.Keys == w.nodes.Keys && pl.members <= w.nodes.Keys
    && (forall p | p in pl.members ::
      && SameArrears(pl.newcomer, w.nodes[p], after.nodes[p])
      && forall y | y in past :: SameEntry(w.nodes[p].log, after.nodes[p].log, past[y].stamp))
    && forall m | !Planned(pl, m) :: TrafficOf(after.net, m) == TrafficOf(w.net, m)
  }

  /** The step does in this world what it does in the one without arrears. */
  ghost predicate Commutes(pl: Plan, past: map<Id, Msg>, w: World, step: Step)
    requires pl.acks.Keys == pl.members
  {
    && CanStep(pl, w, step) && CanStep(pl, PaidWorld(pl, w), step)
    && PaidWorld(pl, JoinWorlds.After(pl, w, step)) == JoinWorlds.After(pl, PaidWorld(pl, w), step)
    && Undisturbed(pl, past, w, JoinWorlds.After(pl, w, step))
  }

  lemma NodeChanges(pl: Plan, nodes: map<Id, Node>, p: Id, n: Node)
    requires p in nodes
    ensures PaidNodes(pl, nodes[p := n]).Keys == nodes.Keys
    ensures PaidNodes(pl, nodes[p := n])
            == PaidNodes(pl, nodes)[p := if p == pl.newcomer then n else Paid(pl.newcomer, n)]
  {
    hide Paid;
  }

  lemma SameAsBefore(x: Id, n: Node)
    requires PeersKnown(n)
    ensures SameArrears(x, n, n)
  {
  }

  /** One member changes, by a step of this join. */
  lemma OneMember(pl: Plan, past: map<Id, Msg>, w: World, p: Id, n: Node, stamps: set<Bytes>, net: Net)
    requires pl.members <= w.nodes.Keys && p in pl.members && SameArrears(pl.newcomer, w.nodes[p], n)
    requires forall q | q in pl.members :: PeersKnown(w.nodes[q])
    requires Elsewhere(w.nodes[p].log, n.log, stamps) && forall y | y in past :: past[y].stamp !in stamps
    requires forall m | !Planned(pl, m) :: TrafficOf(net, m) == TrafficOf(w.net, m)
    ensures Undisturbed(pl, past, w, World(w.nodes[p := n], net))
  {
    hide SameArrears, Planned, TrafficOf;
    forall q | q in pl.members
      ensures SameArrears(pl.newcomer, w.nodes[q], w.nodes[p := n][q])
      ensures forall y | y in past :: SameEntry(w.nodes[q].log, w.nodes[p := n][q].log, past[y].stamp)
    {
      SameAsBefore(pl.newcomer, w.nodes[q]);
    }
  }

  lemma StageParts(s: Stage)
    requires InOrder(s)
    ensures var pl, w, v := s.plan, s.world, PaidWorld(s.plan, s.world);
            && PlanOk(pl) && JoinInv(pl, v) && pl.acks.Keys == pl.members && pl.entry in pl.members
            && pl.newcomer !in pl.members && w.nodes.Keys == v.nodes.Keys == pl.Everyone()
            && pl.addresses.Keys == pl.Everyone()
            && v.nodes[pl.newcomer] == w.nodes[pl.newcomer] && NewcomerOk(pl, w.nodes[pl.newcomer])
            && (forall p | p in pl.members ::
              && v.nodes[p] == Paid(pl.newcomer, w.nodes[p]) && pl.acks[p].JoinAck? && MemberOk(pl, v.nodes[p], p)
              && Lagging(pl.newcomer, s.past, w.nodes[p]) && PeersKnown(w.nodes[p]))
  {
    hide NodesOk, ProgressOk, WireOk, NoticeOk, MemberOk, NewcomerOk, NoStrays, StampsApart, EntryOk, Paid;
    Parts(s.plan, PaidWorld(s.plan, s.world));
    NewcomerIsNone(s.plan);
    forall p | p in s.plan.members
      ensures s.plan.acks[p].JoinAck?
    {
      AckIs(s.plan, p);
    }
  }

  lemma NoticeSends(pl: Plan, n: Node, p: Id, q: Id)
    requires PlanOk(pl) && p in pl.members && p in pl.acks && pl.acks[p].JoinAck? && MemberOk(pl, n, p) && q in n.peers
    ensures CanReceive(pl.env, n, Member(q), pl.notif, pl.StampsAt(p))
    ensures forall sent | sent in Receive(pl.env, n, Member(q), pl.notif, pl.StampsAt(p)).sends ::
      Planned(pl, sent.message)
  {
    hide MemberOk, PlanOk, Receive, CanReceive, Credit, Zeros, Told, Done, Graph.Succ, Graph.Pred, Plan.Graph;
    MessagesDiffer(pl);
    AckIs(pl, p);
    if Told(pl, n) {
      LaterNotice(pl, n, p, q);
    } else {
      FirstNotice(pl, n, p, q);
    }
  }

  /** p does the same with this message from q in both worlds, and sends and
      logs only what is planned. */
  ghost predicate Alike(s: Stage, m: Msg, q: Id, p: Id, stamps: set<Bytes>)
    requires p in s.world.nodes && q in s.plan.addresses && s.plan.acks.Keys == s.plan.members
  {
    var pl, n := s.plan, s.world.nodes[p];
    var link, st := LinkFrom(pl, n, q), pl.StampsAt(p);
    && CanReceive(pl.env, n, link, m, st) && CanReceive(pl.env, Paid(pl.newcomer, n), link, m, st)
    && var o := Receive(pl.env, n, link, m, st);
       && Receive(pl.env, Paid(pl.newcomer, n), link, m, st) == Outcome(Paid(pl.newcomer, o.node), o.sends)
       && SameArrears(pl.newcomer, n, o.node) && Elsewhere(n.log, o.node.log, stamps)
       && (forall sent | sent in o.sends :: Planned(pl, sent.message))
       && forall y | y in s.past :: s.past[y].stamp !in stamps
  }

  /** What reaches a member does the same in both worlds, if the member does. */
  lemma MemberHears(s: Stage, m: Msg, e: Edge, stamps: set<Bytes>)
    requires InOrder(s) && s.plan.acks.Keys == s.plan.members && e in TrafficOf(s.world.net, m).copies
    requires Planned(s.plan, m) && e.to in s.plan.members && e.to in s.world.nodes && e.from in s.plan.addresses
    requires m != s.plan.ready && CanStep(s.plan, PaidWorld(s.plan, s.world), Arrives(m, e))
    requires Alike(s, m, e.from, e.to, stamps)
    ensures Commutes(s.plan, s.past, s.world, Arrives(m, e))
  {
    hide InOrder, JoinInv, PlanOk, MemberOk, NewcomerOk, Lagging, Paid, Receive, CanReceive, SameArrears, PostAll,
      Take, TrafficOf, Planned, OnlyPlanned, PaidNodes, Elsewhere, Undisturbed, PeersKnown, Connects, Drained;
    StageParts(s);
    var pl, w, v, p := s.plan, s.world, PaidWorld(s.plan, s.world), e.to;
    InNet(w.net, m, e);
    var n := w.nodes[p];
    PaidIs(pl.newcomer, n);
    var o := Receive(pl.env, n, LinkFrom(pl, n, e.from), m, pl.StampsAt(p));
    var net := PostAll(Take(w.net, m, e), p, o.sends);
    NodeChanges(pl, w.nodes, p, o.node);
    TakesPlanned(pl, w.net, m, e);
    PostsPlanned(pl, Take(w.net, m, e), p, o.sends);
    var told, x := w.nodes[p := o.node], Accept(w.nodes[pl.newcomer], pl.addresses[p]);
    OneMember(pl, s.past, w, p, o.node, stamps, net);
    ConnectsAlike(pl, w, n, m);
    if Connects(w.nodes, n, m) {
      NodeChanges(pl, told, pl.newcomer, x);
      NewcomerAside(pl, s.past, w, World(told, net), x);
    }
  }

  lemma ConnectsAlike(pl: Plan, w: World, n: Node, m: Msg)
    requires PlanOk(pl) && Planned(pl, m)
    ensures Connects(w.nodes, n, m) <==> Connects(PaidWorld(pl, w).nodes, Paid(pl.newcomer, n), m)
    ensures Connects(w.nodes, n, m) ==> m.JoinNotif? && m.peerId == pl.newcomer
  {
    hide PlanOk, Planned;
    if m.JoinNotif? {
      OnlyNoticeAdmits(pl, m);
    }
  }

  lemma OnlyNoticeAdmits(pl: Plan, m: Msg)
    requires PlanOk(pl) && Planned(pl, m) && m.JoinNotif?
    ensures m == pl.notif && m.peerId == pl.newcomer
  {
  }

  lemma NoticeIsAlike(s: Stage, q: Id, p: Id)
    requires InOrder(s) && s.plan.acks.Keys == s.plan.members && p in s.plan.members && p in s.world.nodes
    requires q in s.world.nodes[p].peers && q in s.plan.addresses && p in s.plan.acks
    ensures Alike(s, s.plan.notif, q, p, {s.plan.notif.stamp, s.plan.acks[p].stamp})
  {
    hide InOrder, JoinInv, PlanOk, MemberOk, NewcomerOk, Lagging, Paid, Receive, CanReceive, SameArrears, Planned,
      Elsewhere, PaidWorld, PeersKnown;
    StageParts(s);
    var pl, x, n := s.plan, s.plan.newcomer, s.world.nodes[p];
    PaidIs(x, n);
    NoticeSends(pl, Paid(x, n), p, q);
    NoticeIs(pl, p);
    AckIs(pl, p);
    NoticeCommutes(pl.env, x, n, q, pl.notif, pl.StampsAt(p));
    NoticePlanned(pl);
    PastIsApart(s, pl.notif);
    PastIsApart(s, pl.acks[p]);
  }

  lemma NoticeArrives(s: Stage, e: Edge)
    requires InOrder(s) && e in TrafficOf(s.world.net, s.plan.notif).copies && s.plan.acks.Keys == s.plan.members
    requires CanStep(s.plan, PaidWorld(s.plan, s.world), Arrives(s.plan.notif, e))
    ensures Commutes(s.plan, s.past, s.world, Arrives(s.plan.notif, e))
  {
    hide InOrder, JoinInv, PlanOk, MemberOk, NewcomerOk, Lagging, Paid, TrafficOf, Planned, PaidWorld, Commutes,
      CanStep, Alike, PeersKnown;
    StageParts(s);
    var pl, w, v, p := s.plan, s.world, PaidWorld(s.plan, s.world), e.to;
    MessagesDiffer(pl);
    SameTraffic(pl, w, pl.notif);
    NoticeEdge(pl, v, e);
    PaidIs(pl.newcomer, w.nodes[p]);
    NoticeIsAlike(s, e.from, p);
    MemberHears(s, pl.notif, e, {pl.notif.stamp, pl.acks[p].stamp});
  }

  lemma PastIsApart(s: Stage, m: Msg)
    requires InOrder(s) && Planned(s.plan, m)
    ensures forall y | y in s.past :: m.stamp != s.past[y].stamp
  {
    hide JoinInv, ArrearsOk, EntryOk, NoStrays, Planned;
  }

  lemma NewcomerAside(pl: Plan, past: map<Id, Msg>, w: World, after: World, x: Node)
    requires pl.newcomer !in pl.members && pl.newcomer in w.nodes && Undisturbed(pl, past, w, after)
    ensures Undisturbed(pl, past, w, World(after.nodes[pl.newcomer := x], after.net))
  {
    hide SameArrears, SameEntry, Planned;
  }

  /** The newcomer has no arrears: what reaches it does the same in both worlds. */
  lemma NewcomerHears(s: Stage, m: Msg, e: Edge)
    requires InOrder(s) && s.plan.acks.Keys == s.plan.members && e in TrafficOf(s.world.net, m).copies
    requires Planned(s.plan, m) && !m.JoinNotif? && e.to == s.plan.newcomer
    requires CanStep(s.plan, PaidWorld(s.plan, s.world), Arrives(m, e))
    requires Drained(s.plan, PaidWorld(s.plan, s.world).net) ==> Drained(s.plan, s.world.net)
    requires var v := PaidWorld(s.plan, s.world).nodes[e.to];
             forall sent |
               sent in Receive(s.plan.env, v, LinkFrom(s.plan, v, e.from), m, s.plan.StampsAt(e.to)).sends ::
               Planned(s.plan, sent.message)
    ensures Commutes(s.plan, s.past, s.world, Arrives(m, e))
  {
    hide InOrder, JoinInv, PlanOk, MemberOk, NewcomerOk, Lagging, Paid, Receive, CanReceive, SameArrears, PostAll,
      Take, TrafficOf, Planned, OnlyPlanned, PaidNodes, Undisturbed, Drained;
    StageParts(s);
    var pl, w, v, x := s.plan, s.world, PaidWorld(s.plan, s.world), s.plan.newcomer;
    InNet(w.net, m, e);
    var n := w.nodes[x];
    var o := Receive(pl.env, n, LinkFrom(pl, n, e.from), m, pl.StampsAt(x));
    NodeChanges(pl, w.nodes, x, o.node);
    TakesPlanned(pl, w.net, m, e);
    PostsPlanned(pl, Take(w.net, m, e), x, o.sends);
    MembersStay(pl, s.past, w, PostAll(Take(w.net, m, e), x, o.sends));
    NewcomerAside(pl, s.past, w, World(w.nodes, PostAll(Take(w.net, m, e), x, o.sends)), o.node);
  }

  lemma MembersStay(pl: Plan, past: map<Id, Msg>, w: World, net: Net)
    requires pl.members <= w.nodes.Keys && forall p | p in pl.members :: PeersKnown(w.nodes[p])
    requires forall m | !Planned(pl, m) :: TrafficOf(net, m) == TrafficOf(w.net, m)
    ensures Undisturbed(pl, past, w, World(w.nodes, net))
  {
    hide SameArrears, Planned, TrafficOf, PeersKnown;
    forall p | p in pl.members
      ensures SameArrears(pl.newcomer, w.nodes[p], w.nodes[p])
    {
      SameAsBefore(pl.newcomer, w.nodes[p]);
    }
  }

  lemma SameDrained(pl: Plan, net: Net)
    requires PlanOk(pl) && pl.acks.Keys == pl.members
    ensures Drained(pl, OnlyPlanned(pl, net)) <==> Drained(pl, net)
  {
    hide PlanOk, Planned, OnlyPlanned, TrafficOf;
    MessagesDiffer(pl);
    PlannedTraffic(pl, net, pl.notif);
    forall p | p in pl.members
      ensures TrafficOf(OnlyPlanned(pl, net), pl.acks[p]) == TrafficOf(net, pl.acks[p])
    {
      AckIs(pl, p);
      PlannedTraffic(pl, net, pl.acks[p]);
    }
  }

  lemma AckOrReadyArrives(s: Stage, m: Msg, e: Edge)
    requires InOrder(s) && s.plan.acks.Keys == s.plan.members && Enabled(s.plan, s.world, Arrives(m, e))
    requires Planned(s.plan, m) && m != s.plan.notif && m != s.plan.readyNotif
    requires CanStep(s.plan, PaidWorld(s.plan, s.world), Arrives(m, e))
    ensures Commutes(s.plan, s.past, s.world, Arrives(m, e))
  {
    hide InOrder, JoinInv, PlanOk, MemberOk, NewcomerOk, Lagging, Paid, Receive, CanReceive, TrafficOf, OnlyPlanned,
      PaidNodes, Drained, Commutes, Nearest;
    StageParts(s);
    var pl, w, v := s.plan, s.world, PaidWorld(s.plan, s.world);
    var n := v.nodes[pl.newcomer];
    MessagesDiffer(pl);
    TrafficIs(w.net, m);
    PlannedTraffic(pl, w.net, m);
    SameDrained(pl, w.net);
    if m == pl.ready {
      ReadyInFlight(pl, v, e);
      ReadyArrives(pl, n, pl.entry);
    } else {
      AckIs(pl, m.peerId);
      AckInFlight(pl, v, m.peerId, e);
      AckArrives(pl, n, m.peerId);
    }
    NewcomerHears(s, m, e);
  }

  lemma NoticeAlike(env: Env, x: Id, n: Node, m: Msg, st: Stamps)
    requires PeersKnown(n) && x in n.peers && m.ReadyNotif? && !n.log.Logged(m.stamp) && NobodyKnown(n.newPeers)
    ensures CanReceive(env, n, Member(x), m, st) && CanReceive(env, Paid(x, n), Member(x), m, st)
    ensures var o := Receive(env, n, Member(x), m, st);
            && Receive(env, Paid(x, n), Member(x), m, st) == Outcome(Paid(x, o.node), o.sends)
            && SameArrears(x, n, o.node) && Elsewhere(n.log, o.node.log, {m.stamp}) && o.sends == []
  {
    hide Receive, CanReceive, LogMessage, Paid, SameArrears, Elsewhere, Relying;
    PaidIs(x, n);
    Notified(env, n, x, m, st);
    Notified(env, Paid(x, n), x, m, st);
    PaidLogsAlike(x, n, m, Some(x));
    ReliesOnNewcomer(x, n, LogMessage(n, m, Some(x)).log);
    assert Relying(n, x, LogMessage(n, m, Some(x)).log, n.joinTimers).log == LogMessage(n, m, Some(x)).log by {
      RelyingLogs(n, x, LogMessage(n, m, Some(x)).log, n.joinTimers);
    }
  }

  lemma RelyingLogs(n: Node, y: Id, log: Log, joinTimers: set<Id>)
    ensures Relying(n, y, log, joinTimers).log == log
  {
  }

  lemma RelyingNewPeers(n: Node, y: Id, log: Log, joinTimers: set<Id>)
    ensures Relying(n, y, log, joinTimers).newPeers == n.newPeers
  {
  }

  lemma PaidLogsAlike(x: Id, n: Node, m: Msg, from: Option<Id>)
    requires !m.IsBroadcast()
    ensures LogMessage(Paid(x, n), m, from).log == LogMessage(n, m, from).log
  {
    hide LogMessage;
    LogsAlike(n, Paid(x, n), m, from);
  }

  lemma ReadyNotifIsAlike(s: Stage, p: Id)
    requires InOrder(s) && s.plan.acks.Keys == s.plan.members && p in s.plan.members && p in s.world.nodes
    requires s.plan.newcomer in s.world.nodes[p].peers && s.plan.newcomer in s.plan.addresses
    requires !s.world.nodes[p].log.Logged(s.plan.readyNotif.stamp) && NobodyKnown(s.world.nodes[p].newPeers)
    ensures Alike(s, s.plan.readyNotif, s.plan.newcomer, p, {s.plan.readyNotif.stamp})
  {
    hide InOrder, JoinInv, PlanOk, MemberOk, NewcomerOk, Lagging, Paid, Receive, CanReceive, SameArrears, Planned,
      Elsewhere, PaidWorld, PeersKnown, NobodyKnown;
    StageParts(s);
    MessagesDiffer(s.plan);
    PaidIs(s.plan.newcomer, s.world.nodes[p]);
    NoticeAlike(s.plan.env, s.plan.newcomer, s.world.nodes[p], s.plan.readyNotif, s.plan.StampsAt(p));
    PastIsApart(s, s.plan.readyNotif);
  }

  lemma ReadyNotifArrives(s: Stage, e: Edge)
    requires InOrder(s) && e in TrafficOf(s.world.net, s.plan.readyNotif).copies && s.plan.acks.Keys == s.plan.members
    requires CanStep(s.plan, PaidWorld(s.plan, s.world), Arrives(s.plan.readyNotif, e))
    requires e.to in s.world.nodes && NobodyKnown(s.world.nodes[e.to].newPeers)
    ensures Commutes(s.plan, s.past, s.world, Arrives(s.plan.readyNotif, e))
  {
    hide InOrder, JoinInv, PlanOk, NewcomerOk, Lagging, Paid, Coherent, TrafficOf, Planned, PaidWorld, Commutes,
      CanStep, Nearest, Beside, Alike, PeersKnown, NobodyKnown, ProgressOf;
    StageParts(s);
    var pl, w, v, p := s.plan, s.world, PaidWorld(s.plan, s.world), e.to;
    MessagesDiffer(pl);
    SameTraffic(pl, w, pl.readyNotif);
    ReadyNotifInFlight(pl, v, e);
    PaidIs(pl.newcomer, w.nodes[p]);
    ReadyNotifIsAlike(s, p);
    MemberHears(s, pl.readyNotif, e, {pl.readyNotif.stamp});
  }

  lemma TimerRuns(s: Stage, p: Id)
    requires InOrder(s) && s.plan.acks.Keys == s.plan.members && Enabled(s.plan, s.world, JoinDue(p))
    requires CanStep(s.plan, PaidWorld(s.plan, s.world), JoinDue(p)) && NobodyKnown(s.world.nodes[p].newPeers)
    ensures Commutes(s.plan, s.past, s.world, JoinDue(p))
  {
    hide InOrder, JoinInv, PlanOk, NewcomerOk, MemberOk, Lagging, Paid, SameArrears, Coherent, PeersKnown, TrafficOf,
      Planned, OnlyPlanned, PaidNodes, Undisturbed, Relying, Told, Done, Beside, NobodyKnown, CompleteJoin, CanCheck;
    StageParts(s);
    var pl, w, v, x := s.plan, s.world, PaidWorld(s.plan, s.world), s.plan.newcomer;
    var n, st := w.nodes[p], pl.StampsAt(p);
    PaidIs(x, n);
    TimerExpires(pl, v.nodes[p], p);
    ToldKnows(pl, v.nodes[p], p);
    TimedOut(pl.env, n, x, st);
    TimedOut(pl.env, v.nodes[p], x, st);
    ReliesOnNewcomer(x, n, n.log);
    var after := Relying(n, x, n.log, n.joinTimers - {x});
    RelyingLogs(n, x, n.log, n.joinTimers - {x});
    NodeChanges(pl, w.nodes, p, after);
    SameLog(n.log);
    OneMember(pl, s.past, w, p, after, {}, w.net);
  }

  lemma SameLog(a: Log)
    ensures Elsewhere(a, a, {})
  {
  }

  lemma ReadyRuns(s: Stage)
    requires InOrder(s) && s.plan.acks.Keys == s.plan.members && Enabled(s.plan, s.world, ReadyDue)
    requires CanStep(s.plan, PaidWorld(s.plan, s.world), ReadyDue)
    ensures Commutes(s.plan, s.past, s.world, ReadyDue)
  {
    hide InOrder, JoinInv, PlanOk, NewcomerOk, MemberOk, Lagging, SameArrears, PeersKnown, LogMessage, PostAll,
      TrafficOf, Planned, OnlyPlanned, PaidNodes, Undisturbed, Elsewhere, Drained;
    StageParts(s);
    var pl, w, x, p := s.plan, s.world, s.plan.newcomer, s.plan.entry;
    MessagesDiffer(pl);
    ReadyIs(pl);
    var n := w.nodes[p];
    PaidLogsAlike(x, n, pl.ready, None);
    SentReady(n, x, pl.ready.stamp);
    var o := SendReady(n, x, pl.ready.stamp);
    NodeChanges(pl, w.nodes, p, o.node);
    PostsPlanned(pl, w.net, p, o.sends);
    PastIsApart(s, pl.ready);
    SentKeepsArrears(x, n, o.node.log, o.node.readyTimers);
    OneMember(pl, s.past, w, p, o.node, {pl.ready.stamp}, PostAll(w.net, p, o.sends));
  }

  lemma SentKeepsArrears(x: Id, n: Node, log: Log, readyTimers: set<Id>)
    requires PeersKnown(n)
    ensures SameArrears(x, n, n.(log := log, readyTimers := readyTimers))
  {
  }

  lemma LagsOn(x: Id, past: map<Id, Msg>, n: Node, after: Node)
    requires Lagging(x, past, n) && SameArrears(x, n, after)
    requires forall y | y in past :: SameEntry(n.log, after.log, past[y].stamp)
    ensures Lagging(x, past, after) && Owed(x, after) == Owed(x, n)
    ensures after.joinTimers - {x} == n.joinTimers - {x}
  {
    LagsOnOwed(x, n, after);
    forall y | y in Owed(x, after) && y in past && y !in after.joinTimers
      ensures !after.log.Logged(past[y].stamp)
    {
      assert y !in n.joinTimers - {x} && SameEntry(n.log, after.log, past[y].stamp);
    }
    if !after.joinToken {
      if after.peers == n.peers && after.joinToken == n.joinToken {
        assert Admissions.Underway(after) == Admissions.Underway(n);
      } else {
        assert x in Admissions.Underway(after);
      }
    }
  }

  lemma ArrearsKept(pl: Plan, past: map<Id, Msg>, w: World, after: World)
    requires pl.members <= w.nodes.Keys && ArrearsOk(pl.newcomer, pl.members, past, w)
    requires Undisturbed(pl, past, w, after) && forall y | y in past :: !Planned(pl, past[y])
    ensures ArrearsOk(pl.newcomer, pl.members, past, after)
  {
    hide Lagging, SameArrears, Planned, Owed, TrafficOf, Fan, SameEntry;
    var x := pl.newcomer;
    forall p | p in pl.members
      ensures Lagging(x, past, after.nodes[p]) && Owed(x, after.nodes[p]) == Owed(x, w.nodes[p])
      ensures after.nodes[p].joinTimers - {x} == w.nodes[p].joinTimers - {x}
    {
      LagsOn(x, past, w.nodes[p], after.nodes[p]);
    }
    forall y | y in past
      ensures Expecting(x, pl.members, after.nodes, y) == Expecting(x, pl.members, w.nodes, y)
    {
      SameExpecting(x, pl.members, w.nodes, after.nodes, y);
    }
  }

  lemma SameExpecting(x: Id, members: set<Id>, nodes: map<Id, Node>, after: map<Id, Node>, y: Id)
    requires members <= nodes.Keys && members <= after.Keys
    requires forall p | p in members :: Owed(x, after[p]) == Owed(x, nodes[p])
    requires forall p | p in members :: after[p].joinTimers - {x} == nodes[p].joinTimers - {x}
    ensures Expecting(x, members, after, y) == Expecting(x, members, nodes, y)
  {
    forall p | p in members
      ensures y in Owed(x, after[p]) && y !in after[p].joinTimers
              <==> y in Owed(x, nodes[p]) && y !in nodes[p].joinTimers
    {
      if y in Owed(x, nodes[p]) {
        assert y in after[p].joinTimers - {x} <==> y in nodes[p].joinTimers - {x};
      }
    }
  }

  lemma PastIsUnplanned(s: Stage)
    requires InOrder(s)
    ensures forall y | y in s.past :: !Planned(s.plan, s.past[y])
  {
    hide JoinInv, ArrearsOk, EntryOk, NoStrays, Planned;
  }

  lemma EnabledAlike(s: Stage, step: Step)
    requires InOrder(s) && s.plan.acks.Keys == s.plan.members && Enabled(s.plan, s.world, step)
    requires step.Arrives? ==> Planned(s.plan, step.message)
    ensures Enabled(s.plan, PaidWorld(s.plan, s.world), step)
  {
    hide InOrder, JoinInv, PlanOk, MemberOk, NewcomerOk, Lagging, Drained, Planned, PeersKnown, OnlyPlanned;
    StageParts(s);
    var pl, w := s.plan, s.world;
    match step
    case Arrives(m, e) =>
      PlannedTraffic(pl, w.net, m);
      TrafficIs(w.net, m);
      InNet(OnlyPlanned(pl, w.net), m, e);
      SameDrained(pl, w.net);
    case ReadyDue =>
    case JoinDue(p) =>
      PaidIs(pl.newcomer, w.nodes[p]);
  }

  lemma StepCommutes(s: Stage, step: Step)
    requires InOrder(s) && s.plan.acks.Keys == s.plan.members && Enabled(s.plan, s.world, step)
    requires step.Arrives? ==> Planned(s.plan, step.message)
    requires s.plan.entry in s.world.nodes && !HandsOn(s, step)
    ensures Commutes(s.plan, s.past, s.world, step) && Advances(s.plan, PaidWorld(s.plan, s.world), step)
  {
    hide PlanOk, MemberOk, NewcomerOk, Lagging, Drained, Planned, PeersKnown, OnlyPlanned, JoinInv, Commutes, CanStep,
      Advances, ArrearsOk, EntryOk, StampsApart, NoStrays, PaidWorld, NobodyKnown, TrafficOf, Nearest;
    StageParts(s);
    var pl, w, v := s.plan, s.world, PaidWorld(s.plan, s.world);
    EnabledAlike(s, step);
    EnabledAdvances(pl, v, step);
    assert CanStep(pl, v, step) by { StepIs(pl, v, step); }
    match step
    case ReadyDue => ReadyRuns(s);
    case JoinDue(p) => TimerRuns(s, p);
    case Arrives(m, e) =>
      TrafficIs(w.net, m);
      if m == pl.notif {
        NoticeArrives(s, e);
      } else if m == pl.readyNotif {
        MessagesDiffer(pl);
        SameTraffic(pl, w, m);
        ReadyNotifInFlight(pl, v, e);
        ReadyNotifArrives(s, e);
      } else {
        AckOrReadyArrives(s, m, e);
      }
  }

  lemma StepIs(pl: Plan, w: World, step: Step)
    requires JoinInv(pl, w) && pl.acks.Keys == pl.members && Advances(pl, w, step)
    ensures CanStep(pl, w, step) && JoinInv(pl, JoinWorlds.After(pl, w, step))
    ensures JoinWorlds.After(pl, w, step).nodes.Keys == w.nodes.Keys == pl.Everyone() && pl.entry in pl.members
    ensures ProgressOf(pl, JoinWorlds.After(pl, w, step).nodes) == Moved(pl, ProgressOf(pl, w.nodes), step)
  {
    hide JoinInv, ProgressOf, Moved, CanStep, JoinWorlds.After, PlanOk, Plan.Everyone;
    Parts(pl, w);
    NewcomerIsNone(pl);
    Parts(pl, JoinWorlds.After(pl, w, step));
  }

  lemma SameTraffic(pl: Plan, w: World, m: Msg)
    requires Planned(pl, m)
    ensures TrafficOf(PaidWorld(pl, w).net, m) == TrafficOf(w.net, m)
  {
    hide Planned;
    PlannedTraffic(pl, w.net, m);
  }

  lemma PaidMember(pl: Plan, w: World, p: Id)
    requires p in w.nodes && p != pl.newcomer
    ensures p in PaidWorld(pl, w).nodes && PaidWorld(pl, w).nodes[p] == Paid(pl.newcomer, w.nodes[p])
    ensures Done(pl, PaidWorld(pl, w).nodes[p]) <==> Done(pl, w.nodes[p])
    ensures PaidWorld(pl, w).nodes[p].id == w.nodes[p].id
  {
  }

  /** Between two steps, unless somebody waits and it comes to rely on x. */
  lemma EntryStays(x: Id, n: Node, after: Node)
    requires EntryOk(x, n) && SameArrears(x, n, after) && after.id == n.id && PeersKnown(n)
    requires !NobodyKnown(n.newPeers) && x in after.peers && after.peers[x] == Connected ==>
               x in n.peers && n.peers[x] == Connected
    ensures EntryOk(x, after)
  {
    LagsOnOwed(x, n, after);
    if !NobodyKnown(n.newPeers) {
      assert !n.joinToken;
      assert after.peers.Keys == n.peers.Keys;
    }
  }

  lemma LagsOnOwed(x: Id, n: Node, after: Node)
    requires SameArrears(x, n, after)
    ensures Owed(x, after) == Owed(x, n)
    ensures x in n.peers ==> after.peers.Keys == n.peers.Keys
  {
    forall q
      ensures q in Owed(x, after) <==> q in Owed(x, n)
      ensures x in n.peers ==> (q in after.peers <==> q in n.peers)
    {
      assert q in n.peers.Keys - {x} <==> q in after.peers.Keys - {x};
    }
  }

  lemma StepKeepsEntry(s: Stage, step: Step)
    requires InOrder(s) && s.plan.acks.Keys == s.plan.members && CanStep(s.plan, s.world, step)
    requires s.plan.entry in s.world.nodes && !HandsOn(s, step)
    requires Commutes(s.plan, s.past, s.world, step) && Advances(s.plan, PaidWorld(s.plan, s.world), step)
    ensures var after := JoinWorlds.After(s.plan, s.world, step);
            s.plan.entry in after.nodes && EntryOk(s.plan.newcomer, after.nodes[s.plan.entry])
  {
    hide PlanOk, MemberOk, NewcomerOk, Lagging, PeersKnown, JoinInv, CanStep, JoinWorlds.After, Advances, ArrearsOk,
      StampsApart, NoStrays, NobodyKnown, TrafficOf, Nearest, PaidWorld, SameArrears, EntryOk, ProgressOf, Told, Moved;
    StageParts(s);
    var pl, w, v, p := s.plan, s.world, PaidWorld(s.plan, s.world), s.plan.entry;
    var after := JoinWorlds.After(pl, w, step);
    StepIs(pl, v, step);
    PaidMember(pl, w, p);
    PaidMember(pl, after, p);
    Parts(pl, PaidWorld(pl, after));
    MemberIs(pl, v.nodes[p], p);
    MemberIs(pl, PaidWorld(pl, after).nodes[p], p);
    ToldIs(pl, v.nodes, p);
    ToldIs(pl, PaidWorld(pl, after).nodes, p);
    MessagesDiffer(pl);
    if !NobodyKnown(w.nodes[p].newPeers) {
      DoneOnce(pl, ProgressOf(pl, v.nodes), step, p);
    }
    EntryStays(pl.newcomer, w.nodes[p], after.nodes[p]);
  }

  /** Once the newcomer is seated, its notification has died down for good. */
  lemma NoticeStaysGone(pl: Plan, v: World, step: Step)
    requires JoinInv(pl, v) && pl.acks.Keys == pl.members && Enabled(pl, v, step) && Advances(pl, v, step)
    requires pl.newcomer in v.nodes
    requires v.nodes[pl.newcomer].state == Connected ==> TrafficOf(v.net, pl.notif).copies == multiset{}
    ensures CanStep(pl, v, step) && pl.newcomer in JoinWorlds.After(pl, v, step).nodes
    ensures var after := JoinWorlds.After(pl, v, step);
            after.nodes[pl.newcomer].state == Connected ==> TrafficOf(after.net, pl.notif).copies == multiset{}
  {
    hide PlanOk, JoinInv, CanStep, JoinWorlds.After, TrafficOf, ProgressOf, FloodOf, Plan.Graph, Advances, Drained,
      NodesOk, WireOk, NoticeOk, ProgressOk, MemberOk, NewcomerOk;
    StepIs(pl, v, step);
    var after := JoinWorlds.After(pl, v, step);
    InvMessages(pl, v);
    AckedIs(pl, v.nodes);
    AckedIs(pl, after.nodes);
    if step.Arrives? && step.message == pl.notif {
      TrafficIs(v.net, pl.notif);
    } else {
      NoticeTraffic(pl, v, step);
      if step.Arrives? && step.message == pl.ready {
        DrainedNotice(pl, v.net);
      }
    }
  }

  lemma InvMessages(pl: Plan, v: World)
    requires JoinInv(pl, v)
    ensures PlanOk(pl) && pl.ready != pl.readyNotif && pl.notif != pl.ready && pl.notif != pl.readyNotif
  {
    hide PlanOk, NodesOk, WireOk, NoticeOk, ProgressOk, ProgressOf;
    MessagesDiffer(pl);
  }

  lemma NoticeTraffic(pl: Plan, v: World, step: Step)
    requires JoinInv(pl, v) && pl.acks.Keys == pl.members && Advances(pl, v, step)
    requires !(step.Arrives? && step.message == pl.notif) && CanStep(pl, v, step)
    ensures TrafficOf(JoinWorlds.After(pl, v, step).net, pl.notif).copies == TrafficOf(v.net, pl.notif).copies
  {
    hide JoinInv, CanStep, JoinWorlds.After, TrafficOf, ProgressOf, FloodOf, Moved, PlanOk;
    var after := JoinWorlds.After(pl, v, step);
    FloodCopies(v.nodes, v.net, pl.notif);
    FloodCopies(after.nodes, after.net, pl.notif);
  }

  lemma DrainedNotice(pl: Plan, net: Net)
    requires pl.acks.Keys == pl.members && Drained(pl, net)
    ensures TrafficOf(net, pl.notif).copies == multiset{}
  {
  }

  lemma NewcomerAlike(pl: Plan, w: World)
    requires pl.newcomer in w.nodes
    ensures pl.newcomer in PaidWorld(pl, w).nodes && PaidWorld(pl, w).nodes[pl.newcomer] == w.nodes[pl.newcomer]
    ensures TrafficOf(PaidWorld(pl, w).net, pl.notif) == TrafficOf(w.net, pl.notif)
  {
    hide Paid, TrafficOf;
    NoticePlanned(pl);
    PlannedTraffic(pl, w.net, pl.notif);
  }

  lemma NoticePlanned(pl: Plan)
    ensures Planned(pl, pl.notif) && Planned(pl, pl.readyNotif)
  {
  }

  lemma NoticeStillGone(s: Stage, step: Step)
    requires InOrder(s) && s.plan.acks.Keys == s.plan.members && Enabled(s.plan, s.world, step)
    requires step.Arrives? ==> Planned(s.plan, step.message)
    requires Commutes(s.plan, s.past, s.world, step) && Advances(s.plan, PaidWorld(s.plan, s.world), step)
    ensures var after := JoinWorlds.After(s.plan, s.world, step);
            && after.nodes.Keys == s.plan.Everyone() && s.plan.newcomer in after.nodes
            && (after.nodes[s.plan.newcomer].state == Connected
                ==> TrafficOf(after.net, s.plan.notif).copies == multiset{})
  {
    hide PlanOk, JoinInv, CanStep, JoinWorlds.After, TrafficOf, PaidWorld, Planned, Advances, StampsApart, NoStrays,
      EntryOk, ArrearsOk, Enabled, SameArrears;
    StageIsNamed(s);
    var pl, w := s.plan, s.world;
    EnabledAlike(s, step);
    NewcomerAlike(pl, w);
    NewcomerAlike(pl, JoinWorlds.After(pl, w, step));
    NoticeStaysGone(pl, PaidWorld(pl, w), step);
  }

  lemma StageIsNamed(s: Stage)
    requires InOrder(s)
    ensures s.plan.newcomer in s.world.nodes && s.world.nodes.Keys == s.plan.Everyone()
    ensures JoinInv(s.plan, PaidWorld(s.plan, s.world))
  {
    hide JoinInv, ArrearsOk, NoStrays, StampsApart, EntryOk;
  }

  lemma NoStraysStay(pl: Plan, past: map<Id, Msg>, w: World, after: World)
    requires NoStrays(pl, past, w.net) && Undisturbed(pl, past, w, after)
    ensures NoStrays(pl, past, after.net)
  {
    hide Planned, SameArrears, TrafficOf;
  }

  lemma OthersStay(pl: Plan, past: map<Id, Msg>, w: World, after: World)
    requires Undisturbed(pl, past, w, after)
    ensures forall p | p in pl.members :: after.nodes[p].newPeers == w.nodes[p].newPeers
  {
    hide Planned;
  }

  /** The join goes on as it would without arrears. */
  lemma StepKeepsOrder(s: Stage, step: Step)
    requires InOrder(s) && s.plan.acks.Keys == s.plan.members && Enabled(s.plan, s.world, step)
    requires step.Arrives? ==> Planned(s.plan, step.message)
    requires s.plan.entry in s.world.nodes && !HandsOn(s, step)
    ensures CanStep(s.plan, s.world, step)
    ensures InOrder(s.(world := JoinWorlds.After(s.plan, s.world, step)))
    ensures Commutes(s.plan, s.past, s.world, step) && Advances(s.plan, PaidWorld(s.plan, s.world), step)
  {
    hide PlanOk, MemberOk, NewcomerOk, Lagging, PeersKnown, JoinInv, CanStep, JoinWorlds.After, Advances, NobodyKnown,
      ArrearsOk, StampsApart, NoStrays, TrafficOf, Nearest, PaidWorld, SameArrears, EntryOk, ProgressOf, Enabled,
      Undisturbed, Planned;
    StageParts(s);
    var pl, w, v := s.plan, s.world, PaidWorld(s.plan, s.world);
    StepCommutes(s, step);
    StepIs(pl, v, step);
    var after := JoinWorlds.After(pl, w, step);
    PastIsUnplanned(s);
    ArrearsKept(pl, s.past, w, after);
    StepKeepsEntry(s, step);
    NoticeStillGone(s, step);
    NoStraysStay(pl, s.past, w, after);
    OthersStay(pl, s.past, w, after);
  }

  // --------------------------------------------------- arrears are settled

  /** As far as this join goes, as much is left to happen. */
  ghost predicate AsMuchLeft(pl: Plan, w: World, after: World) {
    && pl.entry in pl.members && PaidWorld(pl, after).nodes.Keys == PaidWorld(pl, w).nodes.Keys == pl.Everyone()
    && Remaining(pl, PaidWorld(pl, after)) == Remaining(pl, PaidWorld(pl, w))
  }

  /** An entry under a stamp of none of its messages is nothing to a join. */
  lemma LogAside(pl: Plan, w: World, p: Id, log: Log)
    requires JoinInv(pl, w) && p in pl.members && p in w.nodes
    requires forall m | Planned(pl, m) :: SameEntry(w.nodes[p].log, log, m.stamp)
    ensures var after := World(w.nodes[p := w.nodes[p].(log := log)], w.net);
            && JoinInv(pl, after) && w.nodes.Keys == pl.Everyone() && pl.entry in pl.members
            && Remaining(pl, after) == Remaining(pl, w)
  {
    hide PlanOk, MemberOk, NewcomerOk, NodesOk, ProgressOf, ProgressOk, WireOk, NoticeOk, Planned, TrafficOf, FloodOf,
      SameEntry, Told, Done, Measure, Plan.Graph, Left, PeersKnown;
    NewcomerIsNone(pl);
    NoticePlanned(pl);
    MemberOfNodes(pl, w.nodes, p);
    var n := w.nodes[p].(log := log);
    SameToldness(pl, w.nodes[p], n);
    SameLogged(w.nodes[p].log, log, pl.notif.stamp);
    SameLogged(w.nodes[p].log, log, pl.readyNotif.stamp);
    LogKeepsMember(pl, w.nodes[p], p, log);
    LogMoves(pl, w.nodes, p, n);
    FloodKept(pl, w, World(w.nodes[p := n], w.net), p);
  }

  lemma MemberOfNodes(pl: Plan, nodes: map<Id, Node>, p: Id)
    requires PlanOk(pl) && NodesOk(pl, nodes) && p in pl.members
    ensures p in nodes && p in pl.acks && pl.acks[p].JoinAck? && MemberOk(pl, nodes[p], p)
  {
    hide PlanOk, MemberOk, NewcomerOk, Told;
    NewcomerIsNone(pl);
    AckIs(pl, p);
  }

  lemma SameLogged(a: Log, b: Log, stamp: Bytes)
    requires SameEntry(a, b, stamp)
    ensures a.Logged(stamp) <==> b.Logged(stamp)
  {
  }

  /** A change of which the world without arrears sees nothing but such an entry. */
  lemma Unseen(s: Stage, p: Id, log: Log, after: World)
    requires InOrder(s) && p in s.plan.members && p in PaidWorld(s.plan, s.world).nodes
    requires var v := PaidWorld(s.plan, s.world);
             && PaidWorld(s.plan, after) == World(v.nodes[p := v.nodes[p].(log := log)], v.net)
             && forall m | Planned(s.plan, m) :: SameEntry(v.nodes[p].log, log, m.stamp)
    ensures JoinInv(s.plan, PaidWorld(s.plan, after)) && AsMuchLeft(s.plan, s.world, after)
  {
    hide JoinInv, PaidWorld, Remaining, Planned, SameEntry, ArrearsOk, StampsApart, NoStrays, EntryOk;
    LogAside(s.plan, PaidWorld(s.plan, s.world), p, log);
  }

  lemma LogMoves(pl: Plan, nodes: map<Id, Node>, p: Id, n: Node)
    requires PlanOk(pl) && NodesOk(pl, nodes) && p in pl.members && MemberOk(pl, n, p)
    requires n == nodes[p].(log := n.log) && (Told(pl, n) <==> Told(pl, nodes[p]))
    ensures NodesOk(pl, nodes[p := n]) && nodes.Keys == pl.Everyone() && pl.entry in pl.members
    ensures ProgressOf(pl, nodes[p := n]) == ProgressOf(pl, nodes)
  {
    hide PlanOk, MemberOk, NewcomerOk, Told;
    NewcomerIsNone(pl);
    MemberMoves(pl, nodes, p, n);
    var pr := ProgressOf(pl, nodes);
    ToldIs(pl, nodes, p);
    assert pr.told + (if Told(pl, n) then {p} else {}) == pr.told;
    assert pr.done + (if Done(pl, n) then {p} else {}) == pr.done;
  }

  /** What settles p's debt to y, and what that leaves on the wire. */
  ghost predicate Settles(past: map<Id, Msg>, w: World, p: Id, y: Id, log: Log, joinTimers: set<Id>, net: Net)
    requires p in w.nodes && y in past
  {
    var n := w.nodes[p];
    && (forall m | m != past[y] :: TrafficOf(net, m) == TrafficOf(w.net, m))
    && if y in n.joinTimers then
         log == n.log && joinTimers == n.joinTimers - {y} && TrafficOf(net, past[y]) == TrafficOf(w.net, past[y])
       else
         && Elsewhere(n.log, log, {past[y].stamp}) && joinTimers == n.joinTimers
         && TrafficOf(net, past[y]).copies == TrafficOf(w.net, past[y]).copies - multiset{Edge(y, p)}
  }

  lemma SettlesIs(past: map<Id, Msg>, w: World, p: Id, y: Id, log: Log, joinTimers: set<Id>, net: Net)
    requires p in w.nodes && y in past && Settles(past, w, p, y, log, joinTimers, net)
    ensures joinTimers == w.nodes[p].joinTimers || joinTimers == w.nodes[p].joinTimers - {y}
    ensures forall t | t != past[y].stamp :: SameEntry(w.nodes[p].log, log, t)
    ensures forall m :: TrafficOf(net, m).copies <= TrafficOf(w.net, m).copies
  {
    hide TrafficOf;
    forall m
      ensures TrafficOf(net, m).copies <= TrafficOf(w.net, m).copies
    {
      assert m == past[y] || TrafficOf(net, m) == TrafficOf(w.net, m);
    }
  }

  lemma DebtSettled(x: Id, members: set<Id>, past: map<Id, Msg>, w: World, p: Id, y: Id, log: Log,
                    joinTimers: set<Id>, net: Net)
    requires members <= w.nodes.Keys && ArrearsOk(x, members, past, w) && p in members && y in past
    requires y in Owed(x, w.nodes[p]) && Settles(past, w, p, y, log, joinTimers, net)
    ensures ArrearsOk(x, members, past, World(w.nodes[p := Relying(w.nodes[p], y, log, joinTimers)], net))
  {
    hide Fan, TrafficOf, Elsewhere;
    var n, after := w.nodes[p], Relying(w.nodes[p], y, log, joinTimers);
    assert Lagging(x, past, after) by { SettledLags(x, past, n, y, log, joinTimers); }
    var nodes := w.nodes[p := after];
    forall z | z in past
      ensures TrafficOf(net, past[z]).copies == multiset(Fan(z, Expecting(x, members, nodes, z)))
    {
      SettledExpecting(x, members, w.nodes, p, y, log, joinTimers, z);
      if z != y {
        assert past[z].stamp != past[y].stamp;
      } else if y in n.joinTimers {
        assert Expecting(x, members, w.nodes, y) - {p} == Expecting(x, members, w.nodes, y);
      } else {
        OneLessFan(y, Expecting(x, members, w.nodes, y), p);
      }
    }
  }

  lemma SettledLags(x: Id, past: map<Id, Msg>, n: Node, y: Id, log: Log, joinTimers: set<Id>)
    requires Lagging(x, past, n) && y in Owed(x, n) && y in past
    requires joinTimers == n.joinTimers - {y} && (log == n.log || Elsewhere(n.log, log, {past[y].stamp}))
    requires forall z | z in past && z != y :: past[z].stamp != past[y].stamp
    ensures Lagging(x, past, Relying(n, y, log, joinTimers))
  {
    ReliesOnOther(x, n, y, log, joinTimers);
    forall z | z in Owed(x, n) - {y} && z in past && z !in joinTimers
      ensures !log.Logged(past[z].stamp)
    {
      assert log == n.log || SameEntry(n.log, log, past[z].stamp);
    }
  }

  lemma SettledExpecting(x: Id, members: set<Id>, nodes: map<Id, Node>, p: Id, y: Id, log: Log, joinTimers: set<Id>,
                         z: Id)
    requires members <= nodes.Keys && p in members && PeersKnown(nodes[p]) && y in Owed(x, nodes[p])
    requires joinTimers == nodes[p].joinTimers - {y}
    ensures var after := nodes[p := Relying(nodes[p], y, log, joinTimers)];
            Expecting(x, members, after, z)
            == if z == y then Expecting(x, members, nodes, z) - {p} else Expecting(x, members, nodes, z)
  {
    ReliesOnOther(x, nodes[p], y, log, joinTimers);
  }

  lemma DebtorIs(s: Stage, p: Id, y: Id)
    requires InOrder(s) && p in s.plan.members && p in s.world.nodes && y in Owed(s.plan.newcomer, s.world.nodes[p])
    ensures p != s.plan.entry && NobodyKnown(s.world.nodes[p].newPeers) && y in s.past && s.past[y].ReadyNotif?
    ensures y in s.world.nodes[p].peers && y != s.plan.newcomer && PeersKnown(s.world.nodes[p])
    ensures y !in s.world.nodes[p].joinTimers ==> !s.world.nodes[p].log.Logged(s.past[y].stamp)
  {
    hide JoinInv, NoStrays, StampsApart;
  }

  /** The world without arrears, when one of them is settled. */
  lemma SettledUnseen(s: Stage, p: Id, y: Id, log: Log, joinTimers: set<Id>, net: Net)
    requires InOrder(s) && p in s.plan.members && p in s.world.nodes && y in Owed(s.plan.newcomer, s.world.nodes[p])
    requires y in s.past && Settles(s.past, s.world, p, y, log, joinTimers, net)
    requires OnlyPlanned(s.plan, net) == OnlyPlanned(s.plan, s.world.net)
    ensures var pl, v := s.plan, PaidWorld(s.plan, s.world);
            var after := World(s.world.nodes[p := Relying(s.world.nodes[p], y, log, joinTimers)], net);
            && p in v.nodes && PaidWorld(pl, after) == World(v.nodes[p := v.nodes[p].(log := log)], v.net)
            && (forall m | Planned(pl, m) :: SameEntry(v.nodes[p].log, log, m.stamp))
  {
    hide InOrder, TrafficOf, OnlyPlanned, Paid, Relying, PaidNodes, Planned, Settles, Owed, SameEntry, PeersKnown;
    NewcomerApart(s);
    DebtorIs(s, p, y);
    SettlesIs(s.past, s.world, p, y, log, joinTimers, net);
    var pl, w, n := s.plan, s.world, s.world.nodes[p];
    PaidIs(pl.newcomer, n);
    PaidMember(pl, w, p);
    ReliesOnOther(pl.newcomer, n, y, log, joinTimers);
    NodeChanges(pl, w.nodes, p, Relying(n, y, log, joinTimers));
    forall m | Planned(pl, m)
      ensures SameEntry(n.log, log, m.stamp)
    {
      PastIsApart(s, m);
    }
  }

  /** Settling a debt is nothing to the join that is under way. */
  lemma SettlingKeepsOrder(s: Stage, p: Id, y: Id, log: Log, joinTimers: set<Id>, net: Net)
    requires InOrder(s) && p in s.plan.members && p in s.world.nodes && y in Owed(s.plan.newcomer, s.world.nodes[p])
    requires y in s.past && Settles(s.past, s.world, p, y, log, joinTimers, net)
    requires OnlyPlanned(s.plan, net) == OnlyPlanned(s.plan, s.world.net)
    ensures var pl := s.plan;
            var after := World(s.world.nodes[p := Relying(s.world.nodes[p], y, log, joinTimers)], net);
            InOrder(s.(world := after)) && AsMuchLeft(pl, s.world, after)
  {
    hide JoinInv, TrafficOf, OnlyPlanned, Planned, Settles, ArrearsOk, EntryOk, NobodyKnown, StampsApart, PaidWorld,
      NoStrays, AsMuchLeft, Relying, Owed, SameEntry;
    DebtorIs(s, p, y);
    var pl, w := s.plan, s.world;
    SettledUnseen(s, p, y, log, joinTimers, net);
    Unseen(s, p, log, World(w.nodes[p := Relying(w.nodes[p], y, log, joinTimers)], net));
    DebtSettled(pl.newcomer, pl.members, s.past, w, p, y, log, joinTimers, net);
    SettledTraffic(s, p, y, log, joinTimers, net);
    StageIsNamed(s);
    RelyingNewPeers(w.nodes[p], y, log, joinTimers);
    NewcomerApart(s);
  }

  lemma NewcomerApart(s: Stage)
    requires InOrder(s)
    ensures s.plan.newcomer !in s.plan.members
  {
    hide JoinInv, ArrearsOk, NoStrays, StampsApart, EntryOk, PlanOk;
    InvMessages(s.plan, PaidWorld(s.plan, s.world));
    NewcomerIsNone(s.plan);
  }

  lemma SettledTraffic(s: Stage, p: Id, y: Id, log: Log, joinTimers: set<Id>, net: Net)
    requires InOrder(s) && p in s.world.nodes && y in s.past && Settles(s.past, s.world, p, y, log, joinTimers, net)
    ensures NoStrays(s.plan, s.past, net) && TrafficOf(net, s.plan.notif) == TrafficOf(s.world.net, s.plan.notif)
  {
    hide JoinInv, ArrearsOk, EntryOk, Planned, TrafficOf, Elsewhere;
    PastIsUnplanned(s);
    NoticePlanned(s.plan);
  }


  lemma TakesUnplanned(pl: Plan, net: Net, m: Msg, e: Edge)
    requires m in net && !Planned(pl, m)
    ensures OnlyPlanned(pl, Take(net, m, e)) == OnlyPlanned(pl, net)
  {
  }

  /** y's READY_NOTIF reaches a member that still waits for it. */
  lemma LateNotice(s: Stage, y: Id, p: Id)
    requires InOrder(s) && s.plan.acks.Keys == s.plan.members && y in s.past && p in s.plan.members
    requires Edge(y, p) in TrafficOf(s.world.net, s.past[y]).copies && p in s.world.nodes
    ensures s.past[y] in s.world.net && y in Owed(s.plan.newcomer, s.world.nodes[p])
    ensures CanReceive(s.plan.env, s.world.nodes[p], Member(y), s.past[y], s.plan.StampsAt(p))
    ensures var n := s.world.nodes[p];
            var o := Receive(s.plan.env, n, Member(y), s.past[y], s.plan.StampsAt(p));
            && o == Outcome(Relying(n, y, o.node.log, n.joinTimers), [])
            && Settles(s.past, s.world, p, y, o.node.log, n.joinTimers, Take(s.world.net, s.past[y], Edge(y, p)))
  {
    hide JoinInv, EntryOk, StampsApart, NoStrays, Fan, TrafficOf, Take, Receive, CanReceive, Lagging, Elsewhere,
      Relying, LogMessage, Owed;
    var pl, w, m, e, n := s.plan, s.world, s.past[y], Edge(y, p), s.world.nodes[p];
    InNet(w.net, m, e);
    FanIs(y, Expecting(pl.newcomer, pl.members, w.nodes, y), e);
    DebtorIs(s, p, y);
    Notified(pl.env, n, y, m, pl.StampsAt(p));
    RelyingLogs(n, y, LogMessage(n, m, Some(y)).log, n.joinTimers);
    TakeIs(w.net, m, e);
  }

  lemma LateNoticeKeepsOrder(s: Stage, y: Id, p: Id)
    requires InOrder(s) && s.plan.acks.Keys == s.plan.members && y in s.past && p in s.plan.members
    requires Edge(y, p) in TrafficOf(s.world.net, s.past[y]).copies && p in s.world.nodes && s.past[y] in s.world.net
    requires CanReceive(s.plan.env, s.world.nodes[p], Member(y), s.past[y], s.plan.StampsAt(p))
    ensures var o := Receive(s.plan.env, s.world.nodes[p], Member(y), s.past[y], s.plan.StampsAt(p));
            var after := World(s.world.nodes[p := o.node],
                               PostAll(Take(s.world.net, s.past[y], Edge(y, p)), p, o.sends));
            InOrder(s.(world := after)) && AsMuchLeft(s.plan, s.world, after)
  {
    hide InOrder, TrafficOf, Take, Receive, CanReceive, Owed, OnlyPlanned, Planned, PaidWorld, Remaining, Settles;
    LateNotice(s, y, p);
    PastIsUnplanned(s);
    var n := s.world.nodes[p];
    var o := Receive(s.plan.env, n, Member(y), s.past[y], s.plan.StampsAt(p));
    var net := Take(s.world.net, s.past[y], Edge(y, p));
    TakesUnplanned(s.plan, s.world.net, s.past[y], Edge(y, p));
    SettlingKeepsOrder(s, p, y, o.node.log, n.joinTimers, net);
  }

  lemma TimerIsDebt(s: Stage, y: Id, p: Id)
    requires InOrder(s) && p in s.plan.members && p in s.world.nodes
    requires y in s.world.nodes[p].joinTimers && y != s.plan.newcomer
    ensures y in Owed(s.plan.newcomer, s.world.nodes[p])
  {
    hide JoinInv, EntryOk, StampsApart, NoStrays, TrafficOf, PeersKnown, Owed;
    assert y in s.world.nodes[p].joinTimers - {s.plan.newcomer};
  }

  /** y's timer expires at a member. */
  lemma LateTimer(s: Stage, y: Id, p: Id)
    requires InOrder(s) && s.plan.acks.Keys == s.plan.members && p in s.plan.members && p in s.world.nodes
    requires y in s.world.nodes[p].joinTimers && y != s.plan.newcomer
    ensures y in s.past && y in Owed(s.plan.newcomer, s.world.nodes[p]) && CanCheck(s.plan.env, s.world.nodes[p])
    ensures var n := s.world.nodes[p];
            && CompleteJoin(s.plan.env, n, y, s.plan.StampsAt(p))
               == Outcome(Relying(n, y, n.log, n.joinTimers - {y}), [])
            && Settles(s.past, s.world, p, y, n.log, n.joinTimers - {y}, s.world.net)
  {
    hide InOrder, TrafficOf, CompleteJoin, CanCheck, Relying, Owed, PeersKnown, NobodyKnown;
    TimerIsDebt(s, y, p);
    DebtorIs(s, p, y);
    TimedOut(s.plan.env, s.world.nodes[p], y, s.plan.StampsAt(p));
  }

  /** Somebody asks the entry point while its token is taken: a connection, then
      the request. */
  function Asker(n: Node, a: Address, m: Msg, log: Log): Node
    requires m.Join?
  {
    n.(newPeers := n.newPeers[a := Pending(m.id, m.pubKey, Joining, m.port)], log := log)
  }

  lemma AskerWaits(env: Env, n: Node, a: Address, m: Msg, st: Stamps)
    requires m.Join? && !n.joinToken && a !in n.newPeers && !n.log.Logged(m.stamp)
    requires n.state == Connected && HasOwnMarker(env, n)
    ensures CanReceive(env, Accept(n, a), Unsorted(a), m, st)
    ensures var o := Receive(env, Accept(n, a), Unsorted(a), m, st);
            o == Outcome(Asker(n, a, m, o.node.log), []) && Elsewhere(n.log, o.node.log, {m.stamp})
  {
    hide LogMessage, MakeMarker, SameEntry;
    var named := n.(newPeers := n.newPeers[a := Pending(m.id, m.pubKey, Joining, 0)]);
    assert Accept(n, a).newPeers[a := Pending(m.id, m.pubKey, Joining, 0)] == named.newPeers;
    LogEffect(named, m, Some(m.id));
    assert Receive(env, Accept(n, a), Unsorted(a), m, st).node.log == LogMessage(named, m, Some(m.id)).log;
  }

  lemma AskerIs(x: Id, n: Node, a: Address, m: Msg, log: Log)
    requires m.Join? && a !in n.newPeers && PeersKnown(n)
    ensures var after := Asker(n, a, m, log);
            && Paid(x, after) == Paid(x, n).(log := log) && Owed(x, after) == Owed(x, n)
            && Admissions.Waiting(after) == Admissions.Waiting(n) + {m.id}
            && Admissions.Underway(after) == Admissions.Underway(n) && PeersKnown(after)
            && (Admissions.Orderly(n) && m.id !in Admissions.Waiting(n) + n.peers.Keys ==> Admissions.Orderly(after))
  {
    var after := Asker(n, a, m, log);
    assert Blank(after.newPeers) == Blank(n.newPeers);
    forall z
      ensures z in Admissions.Waiting(after) <==> z in Admissions.Waiting(n) + {m.id}
    {
      if z in Admissions.Waiting(n) {
        var b :| b in n.newPeers && n.newPeers[b].state != New && n.newPeers[b].id == z;
        assert b != a && after.newPeers[b] == n.newPeers[b];
      }
      if z == m.id {
        assert after.newPeers[a].id == z;
      }
    }
  }

  /** Whoever asks, asks under a stamp of its own, is nobody yet, and comes from
      an address of its own. */
  ghost predicate Asks(s: Stage, a: Address, m: Msg)
    requires s.plan.entry in s.world.nodes
  {
    var n := s.world.nodes[s.plan.entry];
    && m.Join? && !n.joinToken && a !in n.newPeers && !n.log.Logged(m.stamp)
    && m.id !in s.plan.Everyone() && m.id !in Admissions.Waiting(n)
    && forall o | Planned(s.plan, o) :: o.stamp != m.stamp
  }

  lemma EntryIs(s: Stage)
    requires InOrder(s)
    ensures s.plan.entry in s.world.nodes && s.plan.entry in s.plan.members
    ensures var n := s.world.nodes[s.plan.entry];
            && n.state == Connected && HasOwnMarker(s.plan.env, n) && n.id == s.plan.entry && PeersKnown(n)
            && n.peers.Keys <= s.plan.Everyone() && EntryOk(s.plan.newcomer, n)
            && PaidWorld(s.plan, s.world).nodes[s.plan.entry] == Paid(s.plan.newcomer, n)
  {
    hide JoinInv, PlanOk, MemberOk, NewcomerOk, ArrearsOk, EntryOk, NoStrays, StampsApart, MakeMarker, Told, PaidWorld;
    StageParts(s);
    var p, n := s.plan.entry, s.world.nodes[s.plan.entry];
    PaidMember(s.plan, s.world, p);
    MemberIs(s.plan, Paid(s.plan.newcomer, n), p);
    PaidIs(s.plan.newcomer, n);
  }

  /** A request while the token is taken: its peer waits, and the join goes on. */
  lemma AskingKeepsOrder(s: Stage, a: Address, m: Msg, st: Stamps)
    requires InOrder(s) && s.plan.entry in s.world.nodes && Asks(s, a, m)
    ensures CanReceive(s.plan.env, Accept(s.world.nodes[s.plan.entry], a), Unsorted(a), m, st)
    ensures var o := Receive(s.plan.env, Accept(s.world.nodes[s.plan.entry], a), Unsorted(a), m, st);
            var after := World(s.world.nodes[s.plan.entry := o.node], s.world.net);
            && o.sends == [] && InOrder(s.(world := after)) && AsMuchLeft(s.plan, s.world, after)
            && Admissions.Waiting(o.node) == Admissions.Waiting(s.world.nodes[s.plan.entry]) + {m.id}
  {
    hide InOrder, Receive, CanReceive, Asker, HasOwnMarker, EntryOk, Paid, PaidWorld, Remaining, Planned, Elsewhere,
      Admissions.Waiting;
    EntryIs(s);
    var n := s.world.nodes[s.plan.entry];
    AskerWaits(s.plan.env, n, a, m, st);
    AskerIs(s.plan.newcomer, n, a, m, Receive(s.plan.env, Accept(n, a), Unsorted(a), m, st).node.log);
    AskerKeepsOrder(s, a, m, Receive(s.plan.env, Accept(n, a), Unsorted(a), m, st).node.log);
  }

  lemma AskerKeepsOrder(s: Stage, a: Address, m: Msg, log: Log)
    requires InOrder(s) && s.plan.entry in s.world.nodes && Asks(s, a, m)
    requires Elsewhere(s.world.nodes[s.plan.entry].log, log, {m.stamp})
    ensures var n := s.world.nodes[s.plan.entry];
            var after := World(s.world.nodes[s.plan.entry := Asker(n, a, m, log)], s.world.net);
            InOrder(s.(world := after)) && AsMuchLeft(s.plan, s.world, after)
  {
    hide JoinInv, TrafficOf, Paid, Asker, ArrearsOk, NobodyKnown, StampsApart, NoStrays, HasOwnMarker, PaidWorld,
      EntryOk, Planned, Elsewhere, PeersKnown, AsMuchLeft, SameEntry, Owed;
    EntryIs(s);
    NewcomerApart(s);
    var pl, w, p := s.plan, s.world, s.plan.entry;
    var n := w.nodes[p];
    AskerIs(pl.newcomer, n, a, m, log);
    PaidIs(pl.newcomer, n);
    AskedAside(pl, n, log, m);
    PaidWith(pl, w, p, Asker(n, a, m, log));
    PaidKeys(pl, w);
    Unseen(s, p, log, World(w.nodes[p := Asker(n, a, m, log)], w.net));
    AskerLags(s, a, m, log);
    AskerEntry(pl.newcomer, n, a, m, log) by {
      assert m.id !in n.peers && m.id != n.id;
    }
  }

  lemma PaidKeys(pl: Plan, w: World)
    ensures PaidWorld(pl, w).nodes.Keys == w.nodes.Keys
  {
    hide Paid;
  }

  lemma AskerEntry(x: Id, n: Node, a: Address, m: Msg, log: Log)
    requires EntryOk(x, n) && m.Join? && !n.joinToken && a !in n.newPeers && PeersKnown(n)
    requires m.id !in Admissions.Waiting(n) && m.id !in n.peers && m.id != n.id
    ensures EntryOk(x, Asker(n, a, m, log))
  {
    hide Admissions.Orderly, Admissions.Waiting, Paid, Owed;
    AskerIs(x, n, a, m, log);
  }

  lemma AskedAside(pl: Plan, n: Node, log: Log, m: Msg)
    requires Elsewhere(n.log, log, {m.stamp}) && forall o | Planned(pl, o) :: o.stamp != m.stamp
    ensures forall o | Planned(pl, o) :: SameEntry(n.log, log, o.stamp)
  {
    hide Planned, SameEntry;
  }

  /** One member changes: the world without arrears. */
  lemma PaidWith(pl: Plan, w: World, p: Id, n: Node)
    requires p in w.nodes && p != pl.newcomer
    ensures PaidWorld(pl, World(w.nodes[p := n], w.net))
            == World(PaidWorld(pl, w).nodes[p := Paid(pl.newcomer, n)], PaidWorld(pl, w).net)
  {
    hide Paid;
    NodeChanges(pl, w.nodes, p, n);
  }

  lemma AskerLags(s: Stage, a: Address, m: Msg, log: Log)
    requires InOrder(s) && s.plan.entry in s.plan.members && s.plan.entry in s.world.nodes && m.Join?
    requires a !in s.world.nodes[s.plan.entry].newPeers
    ensures var w, p := s.world, s.plan.entry;
            ArrearsOk(s.plan.newcomer, s.plan.members, s.past, World(w.nodes[p := Asker(w.nodes[p], a, m, log)], w.net))
  {
    hide JoinInv, StampsApart, NoStrays, TrafficOf, Fan, Admissions.Orderly, Admissions.Waiting, Admissions.Underway,
      Paid;
    var pl, w, p := s.plan, s.world, s.plan.entry;
    var n := w.nodes[p];
    AskerIs(pl.newcomer, n, a, m, log);
    SameDebtsElsewhere(pl.newcomer, pl.members, s.past, w, p, Asker(n, a, m, log), w.net);
  }

  /** A member that owes nothing changes, and still owes nothing. */
  lemma SameDebtsElsewhere(x: Id, members: set<Id>, past: map<Id, Msg>, w: World, p: Id, n: Node, net: Net)
    requires members <= w.nodes.Keys && ArrearsOk(x, members, past, w) && p in members
    requires Owed(x, w.nodes[p]) == {} == Owed(x, n) && PeersKnown(n) && n.joinTimers <= {x}
    requires !n.joinToken ==> Admissions.Underway(n) != {}
    requires forall y | y in past :: TrafficOf(net, past[y]).copies == TrafficOf(w.net, past[y]).copies
    ensures ArrearsOk(x, members, past, World(w.nodes[p := n], net))
  {
    hide Owed, TrafficOf, Fan, Admissions.Underway;
    assert Lagging(x, past, n);
    forall y | y in past
      ensures Expecting(x, members, w.nodes[p := n], y) == Expecting(x, members, w.nodes, y)
    {
    }
  }
}
