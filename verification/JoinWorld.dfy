/** A join as a whole: copies arriving in any order and timers expiring, from
    the entry point's answer to the point where nothing is left to do. */
module JoinWorlds {
  import opened Bytes
  import opened Rings
  import opened Groups
  import opened Messages
  import opened Logs
  import opened Nodes
  import opened Invariants
  import opened Limits
  import opened Floods
  import opened Systems
  import opened Joins

  datatype World = World(nodes: map<Id, Node>, net: Net)

  /** A copy arrives, in any order; the entry point's READY timer expires; or a
      member's timer for the newcomer does. */
  datatype Step = Arrives(message: Msg, edge: Edge) | ReadyDue | JoinDue(member: Id)

  /** The notification and its acknowledgements have all arrived. */
  ghost predicate Drained(pl: Plan, net: Net)
    requires pl.acks.Keys == pl.members
  {
    TrafficOf(net, pl.notif).copies == multiset{} &&
    forall p | p in pl.members :: TrafficOf(net, pl.acks[p]).copies == multiset{}
  }

  /** READY is given three seconds: here, as long as the rest takes to arrive. */
  ghost predicate Enabled(pl: Plan, w: World, step: Step)
    requires pl.acks.Keys == pl.members
  {
    match step
    case Arrives(m, e) => m in w.net && e in w.net[m].copies && (m == pl.ready ==> Drained(pl, w.net))
    case ReadyDue => pl.entry in w.nodes && pl.newcomer in w.nodes[pl.entry].readyTimers
    case JoinDue(p) => p in w.nodes && p in pl.members && pl.newcomer in w.nodes[p].joinTimers
  }

  /** The connection q's messages arrive on. */
  function LinkFrom(pl: Plan, n: Node, q: Id): Link
    requires q in pl.addresses
  {
    if q in n.peers then Member(q) else Unsorted(pl.addresses[q])
  }

  function Completing(pl: Plan, n: Node): Node {
    n.(peers := if pl.newcomer in n.peers then n.peers[pl.newcomer := Connected] else n.peers,
       joinTimers := n.joinTimers - {pl.newcomer})
  }

  ghost predicate CanStep(pl: Plan, w: World, step: Step)
    requires pl.acks.Keys == pl.members
  {
    && Enabled(pl, w, step)
    && match step
       case Arrives(m, e) =>
         && e.to in w.nodes && e.from in pl.addresses && e.to in pl.addresses
         && CanReceive(pl.env, w.nodes[e.to], LinkFrom(pl, w.nodes[e.to], e.from), m, pl.StampsAt(e.to))
       case ReadyDue => true
       case JoinDue(p) => CanCheck(pl.env, Completing(pl, w.nodes[p]))
  }

  /** Whoever admits a notification connects to the newcomer. */
  predicate Connects(nodes: map<Id, Node>, n: Node, m: Msg) {
    !n.log.Logged(m.stamp) && Admits(n, m) && m.peerId in nodes
  }

  ghost function After(pl: Plan, w: World, step: Step): World
    requires pl.acks.Keys == pl.members && CanStep(pl, w, step)
  {
    match step
    case Arrives(m, e) =>
      var n := w.nodes[e.to];
      var out := Receive(pl.env, n, LinkFrom(pl, n, e.from), m, pl.StampsAt(e.to));
      var nodes := w.nodes[e.to := out.node];
      World(if Connects(w.nodes, n, m) then nodes[m.peerId := Accept(nodes[m.peerId], pl.addresses[e.to])] else nodes,
            PostAll(Take(w.net, m, e), e.to, out.sends))
    case ReadyDue =>
      var out := SendReady(w.nodes[pl.entry], pl.newcomer, pl.ready.stamp);
      World(w.nodes[pl.entry := out.node], PostAll(w.net, pl.entry, out.sends))
    case JoinDue(p) =>
      var out := CompleteJoin(pl.env, w.nodes[p], pl.newcomer, pl.StampsAt(p));
      World(w.nodes[p := out.node], PostAll(w.net, p, out.sends))
  }

  // ----------------------------------------------------------- progress

  /** How far the join has come: who has seen the notification, whose
      acknowledgement has arrived, who counts the newcomer as connected, whether
      the entry point still has to send READY, and whether it has arrived. */
  datatype Progress = Progress(told: set<Id>, acked: set<Id>, done: set<Id>, armed: bool, seated: bool)

  ghost function ProgressOf(pl: Plan, nodes: map<Id, Node>): Progress
    requires nodes.Keys == pl.Everyone() && pl.entry in pl.members
  {
    Progress((set p | p in pl.members && Told(pl, nodes[p])),
             nodes[pl.newcomer].peers.Keys,
             (set p | p in pl.members && Done(pl, nodes[p])),
             pl.newcomer in nodes[pl.entry].readyTimers,
             nodes[pl.newcomer].state == Connected)
  }

  /** Nobody acknowledges before it is told; READY finds everyone acquainted;
      and before it no neighbour relies on the newcomer. */
  ghost predicate ProgressOk(pl: Plan, pr: Progress) {
    && pl.entry in pr.told && pr.told <= pl.members && pr.acked <= pr.told && pr.done <= pr.told
    && (pr.armed ==> !pr.seated) && (pr.seated ==> pr.acked == pl.members)
    && (!pr.seated ==> pr.done !! Nearest(pl))
  }

  ghost predicate NodesOk(pl: Plan, nodes: map<Id, Node>)
    requires PlanOk(pl)
  {
    && nodes.Keys == pl.Everyone()
    && (forall p | p in pl.members :: MemberOk(pl, nodes[p], p))
    && NewcomerOk(pl, nodes[pl.newcomer])
    && forall p | p in pl.members && Told(pl, nodes[p]) && p !in nodes[pl.newcomer].peers ::
      pl.addresses[p] in nodes[pl.newcomer].newPeers
  }

  /** Which copies are in flight, of a message other than the notification. */
  ghost function InFlight(pl: Plan, pr: Progress, m: Msg): multiset<Edge> {
    if m == pl.ready then
      if pr.armed || pr.seated then multiset{} else multiset{Edge(pl.entry, pl.newcomer)}
    else if m == pl.readyNotif then
      if pr.seated then multiset(Fan(pl.newcomer, Nearest(pl) - pr.done)) else multiset{}
    else
      if m.JoinAck? && m.peerId in pr.told - pr.acked then multiset{Edge(m.peerId, pl.newcomer)} else multiset{}
  }

  ghost predicate WireOk(pl: Plan, pr: Progress, net: Net) {
    && (forall m | m in net :: Planned(pl, m))
    && forall m | Planned(pl, m) && m != pl.notif :: TrafficOf(net, m).copies == InFlight(pl, pr, m)
  }

  ghost predicate NoticeOk(pl: Plan, w: World) {
    FloodInv(pl.Graph(), {}, pl.entry, FloodOf(w.nodes, w.net, pl.notif))
  }

  ghost predicate JoinInv(pl: Plan, w: World) {
    && PlanOk(pl) && NodesOk(pl, w.nodes)
    && ProgressOk(pl, ProgressOf(pl, w.nodes)) && WireOk(pl, ProgressOf(pl, w.nodes), w.net)
    && NoticeOk(pl, w)
  }

  /** What a step does to the progress of the join. */
  function Moved(pl: Plan, pr: Progress, step: Step): Progress {
    match step
    case Arrives(m, e) =>
      if m == pl.notif then pr.(told := pr.told + {e.to})
      else if m == pl.ready then pr.(seated := true)
      else if m == pl.readyNotif then pr.(done := pr.done + {e.to})
      else pr.(acked := pr.acked + {e.from})
    case ReadyDue => pr.(armed := false)
    case JoinDue(p) => pr.(done := pr.done + {p})
  }

  // ------------------------------------------- one node of the world changes

  lemma NodesKeys(pl: Plan, nodes: map<Id, Node>)
    requires PlanOk(pl) && NodesOk(pl, nodes)
    ensures nodes.Keys == pl.Everyone()
  {
  }

  lemma EveryoneIs(pl: Plan, p: Id)
    ensures p in pl.members ==> p in pl.Everyone()
  {
  }

  lemma MemberMoves(pl: Plan, nodes: map<Id, Node>, p: Id, n: Node)
    requires PlanOk(pl) && NodesOk(pl, nodes) && p in pl.members && MemberOk(pl, n, p)
    requires Told(pl, nodes[p]) ==> Told(pl, n)
    requires Done(pl, nodes[p]) ==> Done(pl, n)
    requires Told(pl, n) && p !in nodes[pl.newcomer].peers ==> pl.addresses[p] in nodes[pl.newcomer].newPeers
    ensures NodesOk(pl, nodes[p := n])
    ensures var pr := ProgressOf(pl, nodes);
            ProgressOf(pl, nodes[p := n])
            == pr.(told := pr.told + (if Told(pl, n) then {p} else {}),
                   done := pr.done + (if Done(pl, n) then {p} else {}),
                   armed := if p == pl.entry then pl.newcomer in n.readyTimers else pr.armed)
  {
    hide MemberOk, NewcomerOk, Told, Done, PlanOk, ProgressOf;
    NewcomerIsNone(pl);
    MemberProgress(pl, nodes, p, n);
  }

  lemma MemberProgress(pl: Plan, nodes: map<Id, Node>, p: Id, n: Node)
    requires nodes.Keys == pl.Everyone() && p in pl.members && pl.entry in pl.members && pl.newcomer !in pl.members
    requires Told(pl, nodes[p]) ==> Told(pl, n)
    requires Done(pl, nodes[p]) ==> Done(pl, n)
    ensures nodes[p := n].Keys == pl.Everyone()
    ensures var pr := ProgressOf(pl, nodes);
            ProgressOf(pl, nodes[p := n])
            == pr.(told := pr.told + (if Told(pl, n) then {p} else {}),
                   done := pr.done + (if Done(pl, n) then {p} else {}),
                   armed := if p == pl.entry then pl.newcomer in n.readyTimers else pr.armed)
  {
    hide Told, Done;
  }

  lemma NewcomerMoves(pl: Plan, nodes: map<Id, Node>, n: Node)
    requires PlanOk(pl) && NodesOk(pl, nodes) && NewcomerOk(pl, n)
    requires forall p | p in pl.members && Told(pl, nodes[p]) && p !in n.peers :: pl.addresses[p] in n.newPeers
    ensures NodesOk(pl, nodes[pl.newcomer := n])
    ensures ProgressOf(pl, nodes[pl.newcomer := n])
            == ProgressOf(pl, nodes).(acked := n.peers.Keys, seated := n.state == Connected)
  {
    hide MemberOk, NewcomerOk, Told, Done, PlanOk;
    NewcomerIsNone(pl);
  }

  // --------------------------------------------------------- the wire

  lemma TakeIs(net: Net, m: Msg, e: Edge)
    requires m in net
    ensures Take(net, m, e).Keys == net.Keys
    ensures TrafficOf(Take(net, m, e), m) == TrafficOf(net, m).(copies := TrafficOf(net, m).copies - multiset{e})
    ensures forall o | o != m :: TrafficOf(Take(net, m, e), o) == TrafficOf(net, o)
  {
  }

  lemma PostIs(net: Net, p: Id, m: Msg, ids: set<Id>)
    ensures PostOne(net, p, Sent(m, ids)).Keys == net.Keys + {m}
    ensures var t := TrafficOf(net, m);
            TrafficOf(PostOne(net, p, Sent(m, ids)), m) == Traffic(t.copies + multiset(Fan(p, ids)), t.sent + |ids|)
    ensures forall o | o != m :: TrafficOf(PostOne(net, p, Sent(m, ids)), o) == TrafficOf(net, o)
  {
  }

  lemma PostTwo(net: Net, p: Id, a: Sent, b: Sent)
    ensures PostAll(net, p, [a, b]) == PostOne(PostOne(net, p, a), p, b)
  {
    assert [a, b][1..] == [b];
    PostSingle(PostOne(net, p, a), p, b);
  }

  lemma OneFan(p: Id, q: Id)
    ensures multiset(Fan(p, {q})) == multiset{Edge(p, q)}
  {
    assert Fan(p, {q}) == {Edge(p, q)};
  }

  /** A step that changes one message's traffic, and nothing due of the others. */
  lemma WireMoves(pl: Plan, pr: Progress, pr': Progress, net: Net, net': Net, changed: set<Msg>)
    requires WireOk(pl, pr, net)
    requires forall m | m in net' :: m in net || m in changed
    requires forall m | m in changed ::
      Planned(pl, m) && (m != pl.notif ==> TrafficOf(net', m).copies == InFlight(pl, pr', m))
    requires forall m | m !in changed :: TrafficOf(net', m) == TrafficOf(net, m)
    requires forall m | m !in changed && Planned(pl, m) && m != pl.notif :: InFlight(pl, pr', m) == InFlight(pl, pr, m)
    ensures WireOk(pl, pr', net')
  {
    hide TrafficOf, InFlight, Planned;
  }

  lemma MessagesDiffer(pl: Plan)
    requires PlanOk(pl)
    ensures pl.acks.Keys == pl.members && pl.notif != pl.ready && pl.notif != pl.readyNotif && pl.ready != pl.readyNotif
    ensures Planned(pl, pl.notif) && Planned(pl, pl.ready) && Planned(pl, pl.readyNotif)
    ensures forall m | Planned(pl, m) && m.JoinAck? :: m.peerId in pl.members && m == pl.acks[m.peerId]
    ensures pl.notif.JoinNotif? && pl.ready.Ready? && pl.readyNotif.ReadyNotif?
  {
  }

  lemma AckIs(pl: Plan, p: Id)
    requires PlanOk(pl) && p in pl.members
    ensures p in pl.acks && Planned(pl, pl.acks[p]) && pl.acks[p].JoinAck? && pl.acks[p].peerId == p
  {
  }

  /** A copy of a taken off the wire, a passed on, and b posted to x. */
  lemma TakenAndPosted(net: Net, a: Msg, e: Edge, s: set<Id>, b: Msg, x: Id)
    requires a in net && a != b
    ensures var net' := PostAll(Take(net, a, e), e.to, [Sent(a, s), Sent(b, {x})]);
            var t := TrafficOf(net, a);
            && net'.Keys == net.Keys + {a, b}
            && TrafficOf(net', a) == Traffic(t.copies - multiset{e} + multiset(Fan(e.to, s)), t.sent + |s|)
            && TrafficOf(net', b).copies == TrafficOf(net, b).copies + multiset{Edge(e.to, x)}
            && forall m | m != a && m != b :: TrafficOf(net', m) == TrafficOf(net, m)
  {
    hide PostAll, PostOne, Take, TrafficOf, Fan;
    var taken := Take(net, a, e);
    TakeIs(net, a, e);
    PostTwo(taken, e.to, Sent(a, s), Sent(b, {x}));
    PostIs(taken, e.to, a, s);
    PostIs(PostOne(taken, e.to, Sent(a, s)), e.to, b, {x});
    OneFan(e.to, x);
  }

  lemma AcksInFlight(pl: Plan, pr: Progress, p: Id)
    requires PlanOk(pl) && p in pl.members && p in pl.acks
    ensures InFlight(pl, pr, pl.acks[p]) == if p in pr.told - pr.acked then multiset{Edge(p,
        pl.newcomer)} else multiset{}
  {
    hide PlanOk;
    MessagesDiffer(pl);
    AckIs(pl, p);
  }

  lemma FirstNoticeWire(pl: Plan, pr: Progress, net: Net, p: Id, q: Id)
    requires PlanOk(pl) && ProgressOk(pl, pr) && WireOk(pl, pr, net) && p in pl.members && p !in pr.told
        && pl.notif in net
    ensures p in pl.acks
    ensures var e := Edge(q, p);
            var net' := PostAll(Take(net, pl.notif, e), p,
                                [Sent(pl.notif, pl.Graph().Succ(p)), Sent(pl.acks[p], {pl.newcomer})]);
            && WireOk(pl, pr.(told := pr.told + {p}), net')
            && PassedOn(TrafficOf(net, pl.notif), TrafficOf(net', pl.notif), e, pl.Graph(), true)
  {
    hide PlanOk, PostAll, Take, TrafficOf, Fan, Graph.Succ, Nearest, Plan.Graph, Planned, InFlight;
    MessagesDiffer(pl);
    AckIs(pl, p);
    TakenAndPosted(net, pl.notif, Edge(q, p), pl.Graph().Succ(p), pl.acks[p], pl.newcomer);
    var net' := PostAll(Take(net, pl.notif, Edge(q, p)), p,
                        [Sent(pl.notif, pl.Graph().Succ(p)), Sent(pl.acks[p], {pl.newcomer})]);
    var pr' := pr.(told := pr.told + {p});
    AcksInFlight(pl, pr, p);
    AcksInFlight(pl, pr', p);
    forall m | m != pl.acks[p] && Planned(pl, m) && m != pl.notif
      ensures InFlight(pl, pr', m) == InFlight(pl, pr, m)
    {
      OtherToldAcks(pl, pr, p, m);
    }
    assert TrafficOf(net, pl.acks[p]).copies == multiset{};
    assert multiset{} + multiset{Edge(p, pl.newcomer)} == multiset{Edge(p, pl.newcomer)};
    WireMoves(pl, pr, pr', net, net', {pl.notif, pl.acks[p]});
  }

  lemma OtherToldAcks(pl: Plan, pr: Progress, p: Id, m: Msg)
    requires PlanOk(pl) && p in pl.members && p in pl.acks && Planned(pl, m) && m != pl.acks[p]
    ensures InFlight(pl, pr.(told := pr.told + {p}), m) == InFlight(pl, pr, m)
  {
    hide PlanOk;
    MessagesDiffer(pl);
  }

  lemma LaterNoticeWire(pl: Plan, pr: Progress, net: Net, p: Id, q: Id)
    requires PlanOk(pl) && WireOk(pl, pr, net) && p in pr.told && pl.notif in net
    ensures var net' := PostAll(Take(net, pl.notif, Edge(q, p)), p, []);
            && WireOk(pl, pr.(told := pr.told + {p}), net')
            && PassedOn(TrafficOf(net, pl.notif), TrafficOf(net', pl.notif), Edge(q, p), pl.Graph(), false)
  {
    hide PlanOk, Take, TrafficOf, Fan, Graph.Succ, Nearest, Plan.Graph, Planned, InFlight;
    MessagesDiffer(pl);
    TakeIs(net, pl.notif, Edge(q, p));
    assert pr.told + {p} == pr.told;
    WireMoves(pl, pr, pr, net, Take(net, pl.notif, Edge(q, p)), {pl.notif});
  }

  lemma OtherAcks(pl: Plan, pr: Progress, p: Id, m: Msg)
    requires PlanOk(pl) && p in pl.members && p in pl.acks && Planned(pl, m) && m != pl.acks[p]
    ensures InFlight(pl, pr.(acked := pr.acked + {p}), m) == InFlight(pl, pr, m)
  {
    hide PlanOk;
    MessagesDiffer(pl);
  }

  lemma AckWire(pl: Plan, pr: Progress, net: Net, p: Id)
    requires PlanOk(pl) && WireOk(pl, pr, net) && p in pl.members && p in pr.told - pr.acked
    requires p in pl.acks && pl.acks[p] in net
    ensures var net' := PostAll(Take(net, pl.acks[p], Edge(p, pl.newcomer)), pl.newcomer, []);
            WireOk(pl, pr.(acked := pr.acked + {p}), net') && TrafficOf(net', pl.notif) == TrafficOf(net, pl.notif)
  {
    hide PlanOk, Take, TrafficOf, Fan, Nearest, Plan.Graph, Planned, InFlight;
    MessagesDiffer(pl);
    AckIs(pl, p);
    var pr' := pr.(acked := pr.acked + {p});
    TakeIs(net, pl.acks[p], Edge(p, pl.newcomer));
    AcksInFlight(pl, pr, p);
    AcksInFlight(pl, pr', p);
    forall m | m != pl.acks[p] && Planned(pl, m) && m != pl.notif
      ensures InFlight(pl, pr', m) == InFlight(pl, pr, m)
    {
      OtherAcks(pl, pr, p, m);
    }
    WireMoves(pl, pr, pr', net, Take(net, pl.acks[p], Edge(p, pl.newcomer)), {pl.acks[p]});
  }

  lemma ReadySentWire(pl: Plan, pr: Progress, net: Net)
    requires PlanOk(pl) && WireOk(pl, pr, net) && pr.armed && !pr.seated
    ensures var net' := PostAll(net, pl.entry, [Sent(pl.ready, {pl.newcomer})]);
            WireOk(pl, pr.(armed := false), net') && TrafficOf(net', pl.notif) == TrafficOf(net, pl.notif)
  {
    hide PlanOk, PostAll, PostOne, TrafficOf, Fan, Nearest, Plan.Graph, Planned;
    MessagesDiffer(pl);
    PostSingle(net, pl.entry, Sent(pl.ready, {pl.newcomer}));
    PostIs(net, pl.entry, pl.ready, {pl.newcomer});
    OneFan(pl.entry, pl.newcomer);
    WireMoves(pl, pr, pr.(armed := false), net, PostOne(net, pl.entry, Sent(pl.ready, {pl.newcomer})), {pl.ready});
  }

  lemma ReadyWire(pl: Plan, pr: Progress, net: Net)
    requires PlanOk(pl) && ProgressOk(pl, pr) && WireOk(pl, pr, net) && !pr.armed && !pr.seated && pl.ready in net
    ensures var net' := PostAll(Take(net, pl.ready, Edge(pl.entry, pl.newcomer)), pl.newcomer,
                                [Sent(pl.readyNotif, Nearest(pl))]);
            WireOk(pl, pr.(seated := true), net') && TrafficOf(net', pl.notif) == TrafficOf(net, pl.notif)
  {
    hide PlanOk, PostAll, PostOne, Take, TrafficOf, Fan, Nearest, Plan.Graph, Planned;
    MessagesDiffer(pl);
    var e := Edge(pl.entry, pl.newcomer);
    var a := Take(net, pl.ready, e);
    TakeIs(net, pl.ready, e);
    PostSingle(a, pl.newcomer, Sent(pl.readyNotif, Nearest(pl)));
    PostIs(a, pl.newcomer, pl.readyNotif, Nearest(pl));
    assert Nearest(pl) - pr.done == Nearest(pl);
    assert multiset{} + multiset(Fan(pl.newcomer, Nearest(pl))) == multiset(Fan(pl.newcomer, Nearest(pl)));
    WireMoves(pl, pr, pr.(seated := true), net, PostOne(a, pl.newcomer, Sent(pl.readyNotif, Nearest(pl))),
              {pl.ready, pl.readyNotif});
  }

  lemma OneLessFan(p: Id, ids: set<Id>, q: Id)
    requires q in ids
    ensures multiset(Fan(p, ids)) - multiset{Edge(p, q)} == multiset(Fan(p, ids - {q}))
  {
    assert Fan(p, ids) == Fan(p, ids - {q}) + {Edge(p, q)};
  }

  lemma ReadyNotifWire(pl: Plan, pr: Progress, net: Net, p: Id)
    requires PlanOk(pl) && WireOk(pl, pr, net) && pr.seated && p in Nearest(pl) - pr.done && pl.readyNotif in net
    ensures var net' := PostAll(Take(net, pl.readyNotif, Edge(pl.newcomer, p)), p, []);
            WireOk(pl, pr.(done := pr.done + {p}), net') && TrafficOf(net', pl.notif) == TrafficOf(net, pl.notif)
  {
    hide PlanOk, Take, TrafficOf, Fan, Nearest, Plan.Graph, Planned;
    MessagesDiffer(pl);
    TakeIs(net, pl.readyNotif, Edge(pl.newcomer, p));
    var some := Nearest(pl) - pr.done;
    assert Nearest(pl) - (pr.done + {p}) == some - {p};
    OneLessFan(pl.newcomer, some, p);
    WireMoves(pl, pr, pr.(done := pr.done + {p}), net, Take(net, pl.readyNotif, Edge(pl.newcomer, p)), {pl.readyNotif});
  }

  lemma TimerWire(pl: Plan, pr: Progress, net: Net, p: Id)
    requires PlanOk(pl) && WireOk(pl, pr, net) && p !in Nearest(pl)
    ensures WireOk(pl, pr.(done := pr.done + {p}), PostAll(net, p, []))
  {
    hide PlanOk, TrafficOf, Fan, Nearest, Plan.Graph, Planned;
    assert Nearest(pl) - (pr.done + {p}) == Nearest(pl) - pr.done;
    MessagesDiffer(pl);
    WireMoves(pl, pr, pr.(done := pr.done + {p}), net, net, {});
  }

  // ------------------------------------------------------- step by step

  /** The step can be taken, keeps the invariant, moves the join on, and is a
      delivery of the notification's flood or leaves that alone. */
  ghost predicate Advances(pl: Plan, w: World, step: Step)
    requires JoinInv(pl, w)
  {
    && CanStep(pl, w, step)
    && var w' := After(pl, w, step);
       && JoinInv(pl, w') && ProgressOf(pl, w'.nodes) == Moved(pl, ProgressOf(pl, w.nodes), step)
       && FloodOf(w'.nodes, w'.net, pl.notif)
          == if step.Arrives? && step.message == pl.notif
             then Deliver(pl.Graph(), {}, FloodOf(w.nodes, w.net, pl.notif), step.edge)
             else FloodOf(w.nodes, w.net, pl.notif)
  }

  lemma GraphIs(pl: Plan)
    requires PlanOk(pl)
    ensures pl.Graph() == RingGraph(pl.env.key, pl.members) && GraphOk(pl.Graph()) && pl.Graph().nodes == pl.members
  {
    FewerKeysDistinct(pl.env.key, pl.members, pl.Everyone());
    RingGraphOk(pl.env.key, pl.members);
  }

  lemma NoticeEdge(pl: Plan, w: World, e: Edge)
    requires JoinInv(pl, w) && e in TrafficOf(w.net, pl.notif).copies
    ensures e in pl.Graph().edges && e.from in pl.members && e.to in pl.members && e.from != e.to
    ensures e in FloodOf(w.nodes, w.net, pl.notif).copies
    ensures e.from in w.nodes[e.to].peers
  {
    hide MemberOk, NewcomerOk, Told, Done, WireOk, ProgressOk, IsNext;
    GraphIs(pl);
    RingGraphEdges(pl.env.key, pl.members, e.from);
    NotOwnSuccessor(pl.env.key, pl.members, e.from);
    MemberIs(pl, w.nodes[e.to], e.to);
  }

  /** Only p changes, and the notification's entry and traffic do not. */
  lemma FloodKept(pl: Plan, w: World, w': World, p: Id)
    requires JoinInv(pl, w) && p in w.nodes && w'.nodes.Keys == w.nodes.Keys
    requires forall q | q in w.nodes && q != p :: w'.nodes[q] == w.nodes[q]
    requires SameEntry(w.nodes[p].log, w'.nodes[p].log, pl.notif.stamp)
    requires TrafficOf(w'.net, pl.notif) == TrafficOf(w.net, pl.notif)
    ensures FloodOf(w'.nodes, w'.net, pl.notif) == FloodOf(w.nodes, w.net, pl.notif) && NoticeOk(pl, w')
  {
    hide FloodInv, FloodOf, NodesOk, WireOk, ProgressOk, TrafficOf, SameEntry, PlanOk;
    FloodElsewhere(w.nodes, w.net, w'.nodes, w'.net, pl.notif, p);
  }

  lemma NoticeMoves(pl: Plan, pr: Progress, e: Edge)
    requires ProgressOk(pl, pr) && e.to in pl.members
    ensures Moved(pl, pr, Arrives(pl.notif, e)) == pr.(told := pr.told + {e.to})
    ensures ProgressOk(pl, pr.(told := pr.told + {e.to}))
  {
    hide Nearest;
  }

  lemma AckMoves(pl: Plan, pr: Progress, m: Msg, e: Edge)
    requires ProgressOk(pl, pr) && e.from in pr.told && m != pl.notif && m != pl.ready && m != pl.readyNotif
    ensures Moved(pl, pr, Arrives(m, e)) == pr.(acked := pr.acked + {e.from})
    ensures ProgressOk(pl, pr.(acked := pr.acked + {e.from}))
  {
    hide Nearest;
  }

  lemma ReadyMoves(pl: Plan, pr: Progress, e: Edge)
    requires pl.ready != pl.notif
    ensures Moved(pl, pr, Arrives(pl.ready, e)) == pr.(seated := true)
    ensures Moved(pl, pr, ReadyDue) == pr.(armed := false)
    ensures ProgressOk(pl, pr) ==> ProgressOk(pl, pr.(armed := false))
  {
    hide Nearest;
  }

  lemma Parts(pl: Plan, w: World)
    requires JoinInv(pl, w)
    ensures PlanOk(pl) && NodesOk(pl, w.nodes) && ProgressOk(pl, ProgressOf(pl, w.nodes))
    ensures WireOk(pl, ProgressOf(pl, w.nodes), w.net) && NoticeOk(pl, w)
    ensures w.nodes.Keys == pl.Everyone() && NewcomerOk(pl, w.nodes[pl.newcomer])
    ensures forall p | p in pl.members :: MemberOk(pl, w.nodes[p], p)
  {
  }

  /** The parts of JoinInv, once the step's world is known. */
  lemma Arrived(pl: Plan, w: World, w': World, step: Step)
    requires JoinInv(pl, w) && CanStep(pl, w, step) && After(pl, w, step) == w'
    requires NodesOk(pl, w'.nodes) && ProgressOf(pl, w'.nodes) == Moved(pl, ProgressOf(pl, w.nodes), step)
    requires ProgressOk(pl, Moved(pl, ProgressOf(pl, w.nodes), step))
    requires WireOk(pl, Moved(pl, ProgressOf(pl, w.nodes), step), w'.net) && NoticeOk(pl, w')
    requires FloodOf(w'.nodes, w'.net, pl.notif)
             == if step.Arrives? && step.message == pl.notif
                then Deliver(pl.Graph(), {}, FloodOf(w.nodes, w.net, pl.notif), step.edge)
                else FloodOf(w.nodes, w.net, pl.notif)
    ensures Advances(pl, w, step)
  {
    hide NodesOk, ProgressOf, Moved, ProgressOk, WireOk, NoticeOk, FloodOf, Deliver, After, CanStep, PlanOk, Plan.Graph;
  }

  /** A copy of the notification, seen or not, is one delivery of its flood. */
  lemma NoticeDelivered(pl: Plan, w: World, w': World, e: Edge, unseen: bool)
    requires JoinInv(pl, w) && e in TrafficOf(w.net, pl.notif).copies && w'.nodes.Keys == w.nodes.Keys
    requires e.to in w.nodes && unseen == !Told(pl, w.nodes[e.to])
    requires forall p | p in w.nodes && p != e.to :: SameEntry(w.nodes[p].log, w'.nodes[p].log, pl.notif.stamp)
    requires var log, log' := w.nodes[e.to].log, w'.nodes[e.to].log;
             && log'.Logged(pl.notif.stamp)
             && log'.entries[pl.notif.stamp].control
                == Credit(if unseen then Zeros(pl.Graph().Pred(e.to)) else log.entries[pl.notif.stamp].control, e.from)
    requires PassedOn(TrafficOf(w.net, pl.notif), TrafficOf(w'.net, pl.notif), e, pl.Graph(), unseen)
    ensures FloodOf(w'.nodes, w'.net, pl.notif) == Deliver(pl.Graph(), {}, FloodOf(w.nodes, w.net, pl.notif), e)
    ensures NoticeOk(pl, w')
  {
    hide NodesOk, WireOk, ProgressOk, FloodOf, FloodInv, Deliver, Credit, Zeros, PassedOn, Graph.Pred, PlanOk,
      Plan.Graph,
      SameEntry, TrafficOf;
    Parts(pl, w);
    NoticeEdge(pl, w, e);
    GraphIs(pl);
    ArrivalIsDelivery(w.nodes, w.net, w'.nodes, w'.net, pl.notif, e, pl.Graph(), {});
    DeliverInv(pl.Graph(), {}, pl.entry, FloodOf(w.nodes, w.net, pl.notif), e);
  }

  lemma InNet(net: Net, m: Msg, e: Edge)
    requires e in TrafficOf(net, m).copies
    ensures m in net && e in net[m].copies && net[m] == TrafficOf(net, m)
  {
  }

  lemma LaterNoticeNodes(pl: Plan, nodes: map<Id, Node>, p: Id, log: Log)
    requires PlanOk(pl) && NodesOk(pl, nodes) && p in pl.members && Told(pl, nodes[p])
    requires MemberOk(pl, nodes[p].(log := log), p) && log.Logged(pl.notif.stamp)
    ensures var nodes' := nodes[p := nodes[p].(log := log)]; var pr := ProgressOf(pl, nodes);
            NodesOk(pl, nodes') && ProgressOf(pl, nodes') == pr.(told := pr.told + {p}) == pr
  {
    hide PlanOk, MemberOk, NewcomerOk;
    NewcomerIsNone(pl);
    MemberMoves(pl, nodes, p, nodes[p].(log := log));
  }

  lemma LaterNoticeStep(pl: Plan, w: World, e: Edge)
    requires JoinInv(pl, w) && e in TrafficOf(w.net, pl.notif).copies && e.to in w.nodes && Told(pl, w.nodes[e.to])
    ensures Advances(pl, w, Arrives(pl.notif, e))
  {
    hide PlanOk, MemberOk, NewcomerOk, NodesOk, ProgressOf, WireOk, FloodOf, FloodInv, Deliver, Receive, CanReceive,
      Credit,
      Zeros, TrafficOf, PassedOn, Plan.Graph, Nearest, SameEntry, PostAll, Take, NoticeOk;
    var step := Arrives(pl.notif, e);
    Parts(pl, w);
    NoticeEdge(pl, w, e);
    NewcomerIsNone(pl);
    MessagesDiffer(pl);
    InNet(w.net, pl.notif, e);
    var n, pr := w.nodes[e.to], ProgressOf(pl, w.nodes);
    LaterNotice(pl, n, e.to, e.from);
    var w' := After(pl, w, step);
    LaterNoticeNodes(pl, w.nodes, e.to, w'.nodes[e.to].log);
    assert e.to in pr.told by { ToldIs(pl, w.nodes, e.to); }
    LaterNoticeWire(pl, pr, w.net, e.to, e.from);
    SameElsewhere(w.nodes, w'.nodes, e.to, pl.notif.stamp);
    NoticeDelivered(pl, w, w', e, false);
    Arrived(pl, w, w', step);
  }

  lemma ToldIs(pl: Plan, nodes: map<Id, Node>, p: Id)
    requires nodes.Keys == pl.Everyone() && pl.entry in pl.members && p in pl.members
    ensures p in ProgressOf(pl, nodes).told <==> Told(pl, nodes[p])
    ensures p in ProgressOf(pl, nodes).done <==> Done(pl, nodes[p])
  {
  }

  /** The nodes after p has handled a first copy from q. */
  ghost predicate FirstNoticed(pl: Plan, nodes: map<Id, Node>, p: Id, q: Id, nodes': map<Id, Node>)
    requires PlanOk(pl) && p in pl.members && pl.newcomer in nodes && p in nodes && p in pl.addresses
  {
    exists n ::
      && MemberOk(pl, n, p) && Told(pl, n) && !Done(pl, n) && n.readyTimers == nodes[p].readyTimers
      && n.log.entries[pl.notif.stamp].control == Credit(Zeros(pl.Graph().Pred(p)), q)
      && nodes' == nodes[p := n][pl.newcomer := Accept(nodes[pl.newcomer], pl.addresses[p])]
  }

  lemma FirstNoticeNodes(pl: Plan, nodes: map<Id, Node>, p: Id, q: Id, nodes': map<Id, Node>)
    requires PlanOk(pl) && NodesOk(pl, nodes) && p in pl.members && !Told(pl, nodes[p])
    requires p in pl.addresses && FirstNoticed(pl, nodes, p, q, nodes')
    ensures NodesOk(pl, nodes')
    ensures ProgressOf(pl, nodes') == ProgressOf(pl, nodes).(told := ProgressOf(pl, nodes).told + {p})
    ensures nodes'.Keys == nodes.Keys && nodes'[p].log.Logged(pl.notif.stamp)
    ensures nodes'[p].log.entries[pl.notif.stamp].control == Credit(Zeros(pl.Graph().Pred(p)), q)
    ensures forall o | o in nodes && o != p :: SameEntry(nodes[o].log, nodes'[o].log, pl.notif.stamp)
  {
    hide PlanOk, NewcomerOk, NodesOk, MemberOk, Done, Credit, Zeros, Plan.Graph, Graph.Pred, ProgressOf;
    NewcomerIsNone(pl);
    AckIs(pl, p);
    NodesKeys(pl, nodes);
    EveryoneIs(pl, p);
    var x := Accept(nodes[pl.newcomer], pl.addresses[p]);
    var n :| MemberOk(pl, n, p) && Told(pl, n) && !Done(pl, n) && n.readyTimers == nodes[p].readyTimers
             && n.log.entries[pl.notif.stamp].control == Credit(Zeros(pl.Graph().Pred(p)), q)
             && nodes' == nodes[p := n][pl.newcomer := x];
    FirstNoticeMoves(pl, nodes, p, n);
  }

  lemma FirstNoticeMoves(pl: Plan, nodes: map<Id, Node>, p: Id, n: Node)
    requires PlanOk(pl) && NodesOk(pl, nodes) && p in pl.members && !Told(pl, nodes[p]) && p in pl.addresses
    requires MemberOk(pl, n, p) && Told(pl, n) && !Done(pl, n) && n.readyTimers == nodes[p].readyTimers
    ensures var nodes' := nodes[p := n][pl.newcomer := Accept(nodes[pl.newcomer], pl.addresses[p])];
            && NodesOk(pl, nodes')
            && ProgressOf(pl, nodes') == ProgressOf(pl, nodes).(told := ProgressOf(pl, nodes).told + {p})
  {
    hide PlanOk, NewcomerOk, MemberOk, Told, Done;
    NewcomerIsNone(pl);
    var x := Accept(nodes[pl.newcomer], pl.addresses[p]);
    AcceptKeepsNewcomer(pl, nodes[pl.newcomer], p);
    UntoldUndone(pl, nodes[p], p);
    NewcomerMoves(pl, nodes, x);
    MemberMoves(pl, nodes[pl.newcomer := x], p, n);
    assert nodes[pl.newcomer := x][p := n] == nodes[p := n][pl.newcomer := x];
  }

  lemma UntoldUndone(pl: Plan, n: Node, p: Id)
    requires PlanOk(pl) && p in pl.members && MemberOk(pl, n, p) && !Told(pl, n)
    ensures !Done(pl, n)
  {
    hide PlanOk;
    NewcomerIsNone(pl);
  }

  lemma NoticeAdmitted(pl: Plan, n: Node, p: Id)
    requires PlanOk(pl) && p in pl.members && MemberOk(pl, n, p)
    ensures Admits(n, pl.notif) && pl.notif.peerId == pl.newcomer
  {
    hide PlanOk, MakeMarker;
    NoticeIs(pl, p);
  }

  /** The world a first copy leads to. */
  lemma FirstNoticeWorld(pl: Plan, w: World, p: Id, q: Id)
    requires PlanOk(pl) && NodesOk(pl, w.nodes) && p in pl.members && !Told(pl, w.nodes[p]) && q in w.nodes[p].peers
    requires pl.notif in w.net && Edge(q, p) in w.net[pl.notif].copies
    requires pl.acks.Keys == pl.members && p in pl.addresses && q in pl.addresses && pl.newcomer !in pl.members
    requires pl.notif != pl.ready
    ensures CanStep(pl, w, Arrives(pl.notif, Edge(q, p)))
    ensures var w' := After(pl, w, Arrives(pl.notif, Edge(q, p)));
            && FirstNoticed(pl, w.nodes, p, q, w'.nodes)
            && w'.net == PostAll(Take(w.net, pl.notif, Edge(q, p)), p,
                                 [Sent(pl.notif, pl.Graph().Succ(p)), Sent(pl.acks[p], {pl.newcomer})])
  {
    hide PlanOk, MemberOk, NewcomerOk, Receive, CanReceive, Credit, Zeros, PostAll, Take, Admits, Graph.Succ,
      Graph.Pred,
      Plan.Graph, Done;
    FirstNotice(pl, w.nodes[p], p, q);
    NoticeAdmitted(pl, w.nodes[p], p);
  }

  lemma FirstNoticeStep(pl: Plan, w: World, e: Edge)
    requires JoinInv(pl, w) && e in TrafficOf(w.net, pl.notif).copies && e.to in w.nodes && !Told(pl, w.nodes[e.to])
    ensures Advances(pl, w, Arrives(pl.notif, e))
  {
    hide PlanOk, MemberOk, NewcomerOk, NodesOk, ProgressOf, WireOk, FloodOf, FloodInv, Deliver, After, CanStep, Credit,
      Zeros, TrafficOf, PassedOn, Plan.Graph, Nearest, SameEntry, PostAll, Take, NoticeOk, Graph.Succ, Graph.Pred,
          Moved,
      FirstNoticed, Advances;
    var step := Arrives(pl.notif, e);
    Parts(pl, w);
    NoticeEdge(pl, w, e);
    NewcomerIsNone(pl);
    MessagesDiffer(pl);
    InNet(w.net, pl.notif, e);
    var p, pr := e.to, ProgressOf(pl, w.nodes);
    FirstNoticeWorld(pl, w, p, e.from);
    var w' := After(pl, w, step);
    FirstNoticeNodes(pl, w.nodes, p, e.from, w'.nodes);
    NoticeMoves(pl, pr, e);
    ToldIs(pl, w.nodes, p);
    FirstNoticeWire(pl, pr, w.net, p, e.from);
    NoticeDelivered(pl, w, w', e, true);
    Arrived(pl, w, w', step);
  }

  // acknowledgements

  lemma AckNodes(pl: Plan, nodes: map<Id, Node>, p: Id, n: Node)
    requires PlanOk(pl) && NodesOk(pl, nodes) && p in pl.members && NewcomerOk(pl, n) && p in pl.addresses
    requires n.peers == nodes[pl.newcomer].peers[p := Connected] && n.state == nodes[pl.newcomer].state
    requires n.newPeers == nodes[pl.newcomer].newPeers - {pl.addresses[p]}
    ensures NodesOk(pl, nodes[pl.newcomer := n])
    ensures var pr := ProgressOf(pl, nodes);
            ProgressOf(pl, nodes[pl.newcomer := n]) == pr.(acked := pr.acked + {p})
  {
    hide PlanOk, MemberOk, NewcomerOk, Told, Done, ProgressOf;
    NewcomerIsNone(pl);
    AddressesDiffer(pl, p);
    AckedIs(pl, nodes);
    NewcomerMoves(pl, nodes, n);
  }

  lemma AckedIs(pl: Plan, nodes: map<Id, Node>)
    requires nodes.Keys == pl.Everyone() && pl.entry in pl.members
    ensures ProgressOf(pl, nodes).acked == nodes[pl.newcomer].peers.Keys
    ensures ProgressOf(pl, nodes).seated <==> nodes[pl.newcomer].state == Connected
  {
  }

  lemma AddressesDiffer(pl: Plan, p: Id)
    requires PlanOk(pl) && p in pl.members
    ensures pl.addresses.Keys == pl.Everyone()
    ensures forall q | q in pl.members && q != p :: pl.addresses[q] != pl.addresses[p]
  {
  }

  /** An acknowledgement in flight comes from a member that is told, and that
      the newcomer does not know yet. */
  lemma AckInFlight(pl: Plan, w: World, p: Id, e: Edge)
    requires JoinInv(pl, w) && p in pl.members && p in pl.acks && e in TrafficOf(w.net, pl.acks[p]).copies
    ensures e == Edge(p, pl.newcomer) && p in ProgressOf(pl, w.nodes).told - ProgressOf(pl, w.nodes).acked
    ensures pl.newcomer in w.nodes && p in pl.addresses
    ensures p !in w.nodes[pl.newcomer].peers && pl.addresses[p] in w.nodes[pl.newcomer].newPeers
  {
    hide PlanOk, MemberOk, NewcomerOk, TrafficOf, NoticeOk, Planned;
    NewcomerIsNone(pl);
    MessagesDiffer(pl);
    AckIs(pl, p);
    ToldIs(pl, w.nodes, p);
    assert TrafficOf(w.net, pl.acks[p]).copies == InFlight(pl, ProgressOf(pl, w.nodes), pl.acks[p]);
  }

  /** Only the newcomer changes, and not what it logged of the notification. */
  ghost predicate NewcomerOnly(pl: Plan, nodes: map<Id, Node>, nodes': map<Id, Node>)
    requires PlanOk(pl) && pl.newcomer in nodes
  {
    && pl.newcomer in nodes' && nodes' == nodes[pl.newcomer := nodes'[pl.newcomer]]
    && NewcomerOk(pl, nodes'[pl.newcomer])
    && SameEntry(nodes[pl.newcomer].log, nodes'[pl.newcomer].log, pl.notif.stamp)
  }

  lemma NewcomerOnlyIs(pl: Plan, nodes: map<Id, Node>, nodes': map<Id, Node>)
    requires PlanOk(pl) && pl.newcomer in nodes && NewcomerOnly(pl, nodes, nodes')
    ensures nodes'.Keys == nodes.Keys && forall q | q in nodes && q != pl.newcomer :: nodes'[q] == nodes[q]
    ensures NewcomerOk(pl, nodes'[pl.newcomer])
    ensures SameEntry(nodes[pl.newcomer].log, nodes'[pl.newcomer].log, pl.notif.stamp)
    ensures nodes' == nodes[pl.newcomer := nodes'[pl.newcomer]]
  {
    hide PlanOk, NewcomerOk, SameEntry;
  }

  lemma AckWorld(pl: Plan, w: World, p: Id)
    requires PlanOk(pl) && pl.acks.Keys == pl.members && p in pl.members && p in pl.addresses
        && pl.newcomer in pl.addresses
    requires pl.newcomer in w.nodes && pl.newcomer !in pl.members && NewcomerOk(pl, w.nodes[pl.newcomer])
    requires p !in w.nodes[pl.newcomer].peers && pl.addresses[p] in w.nodes[pl.newcomer].newPeers
    requires pl.acks[p] in w.net && Edge(p, pl.newcomer) in w.net[pl.acks[p]].copies && pl.acks[p] != pl.ready
    requires pl.acks[p].JoinAck?
    ensures CanStep(pl, w, Arrives(pl.acks[p], Edge(p, pl.newcomer)))
    ensures var w' := After(pl, w, Arrives(pl.acks[p], Edge(p, pl.newcomer))); var x := pl.newcomer;
            && NewcomerOnly(pl, w.nodes, w'.nodes)
            && w'.nodes[x].peers == w.nodes[x].peers[p := Connected] && w'.nodes[x].state == w.nodes[x].state
            && w'.nodes[x].newPeers == w.nodes[x].newPeers - {pl.addresses[p]}
            && w'.net == PostAll(Take(w.net, pl.acks[p], Edge(p, pl.newcomer)), pl.newcomer, [])
  {
    hide PlanOk, NewcomerOk, Receive, CanReceive, SameEntry, PostAll, Take;
    AckArrives(pl, w.nodes[pl.newcomer], p);
  }

  lemma AckStep(pl: Plan, w: World, p: Id, e: Edge)
    requires JoinInv(pl, w) && p in pl.members && p in pl.acks && e in TrafficOf(w.net, pl.acks[p]).copies
    ensures Advances(pl, w, Arrives(pl.acks[p], e))
  {
    hide PlanOk, MemberOk, NewcomerOk, NodesOk, ProgressOf, ProgressOk, WireOk, FloodOf, CanStep, After, Moved,
      Advances,
      TrafficOf, Plan.Graph, Nearest, SameEntry, PostAll, Take, NoticeOk, NewcomerOnly;
    Parts(pl, w);
    AckInFlight(pl, w, p, e);
    NewcomerIsNone(pl);
    MessagesDiffer(pl);
    AckIs(pl, p);
    InNet(w.net, pl.acks[p], e);
    var step, x, pr := Arrives(pl.acks[p], e), pl.newcomer, ProgressOf(pl, w.nodes);
    AckWorld(pl, w, p);
    var w' := After(pl, w, step);
    NewcomerOnlyIs(pl, w.nodes, w'.nodes);
    AckNodes(pl, w.nodes, p, w'.nodes[x]);
    AckMoves(pl, pr, pl.acks[p], e);
    AckWire(pl, pr, w.net, p);
    FloodKept(pl, w, w', x);
    Arrived(pl, w, w', step);
  }

  // READY

  lemma ReadySentStep(pl: Plan, w: World)
    requires JoinInv(pl, w) && pl.entry in w.nodes && pl.newcomer in w.nodes[pl.entry].readyTimers
    ensures Advances(pl, w, ReadyDue)
  {
    hide PlanOk, MemberOk, NewcomerOk, NodesOk, ProgressOf, WireOk, FloodOf, FloodInv, SendReady,
      TrafficOf, Plan.Graph, Nearest, SameEntry, PostAll, NoticeOk;
    Parts(pl, w);
    NewcomerIsNone(pl);
    var p, pr := pl.entry, ProgressOf(pl, w.nodes);
    MessagesDiffer(pl);
    ReadySent(pl, w.nodes[p], p);
    var w' := After(pl, w, ReadyDue);
    ReadySentNodes(pl, w.nodes, w'.nodes[p]);
    ReadySentWire(pl, pr, w.net);
    FloodKept(pl, w, w', p);
    Arrived(pl, w, w', ReadyDue);
  }

  lemma ReadySentNodes(pl: Plan, nodes: map<Id, Node>, n: Node)
    requires PlanOk(pl) && NodesOk(pl, nodes) && pl.entry in pl.members && MemberOk(pl, n, pl.entry)
    requires Told(pl, n) <==> Told(pl, nodes[pl.entry])
    requires n.peers == nodes[pl.entry].peers && n.readyTimers == nodes[pl.entry].readyTimers - {pl.newcomer}
    requires pl.newcomer in nodes[pl.entry].readyTimers
    ensures NodesOk(pl, nodes[pl.entry := n]) && ProgressOf(pl, nodes).armed
    ensures ProgressOf(pl, nodes[pl.entry := n]) == ProgressOf(pl, nodes).(armed := false)
  {
    hide PlanOk, MemberOk, NewcomerOk, Told;
    NewcomerIsNone(pl);
    MemberMoves(pl, nodes, pl.entry, n);
  }

  /** Once the notification has stopped spreading, everyone was told. */
  lemma EveryoneTold(pl: Plan, w: World, p: Id)
    requires JoinInv(pl, w) && TrafficOf(w.net, pl.notif).copies == multiset{} && p in pl.members
    ensures p in w.nodes && Told(pl, w.nodes[p])
  {
    hide PlanOk, NodesOk, Told, Done, FloodInv, FloodOf, TrafficOf, WireOk, ProgressOk, KeysDistinct, RingGraph;
    Parts(pl, w);
    GraphIs(pl);
    MemberKeys(pl);
    FloodCopies(w.nodes, w.net, pl.notif);
    RingFloodReachesAll(pl.env.key, pl.members, pl.entry, FloodOf(w.nodes, w.net, pl.notif));
    LoggedIsTold(pl, w.nodes, w.net, p);
  }

  /** With the notification and its acknowledgements all arrived, the newcomer
      knows everyone. */
  lemma DrainedIsAcquainted(pl: Plan, w: World)
    requires JoinInv(pl, w) && pl.acks.Keys == pl.members && Drained(pl, w.net)
    ensures ProgressOf(pl, w.nodes).told == pl.members && ProgressOf(pl, w.nodes).acked == pl.members
  {
    hide PlanOk, NodesOk, Told, Done, TrafficOf, WireOk, ProgressOf, NoticeOk, Nearest;
    Parts(pl, w);
    NewcomerIsNone(pl);
    var pr := ProgressOf(pl, w.nodes);
    forall p | p in pl.members
      ensures p in pr.told
    {
      EveryoneTold(pl, w, p);
      ToldIs(pl, w.nodes, p);
    }
    assert pr.told == pl.members;
    NoAcksIsAcked(pl, pr, w.net);
  }

  lemma NoAcksIsAcked(pl: Plan, pr: Progress, net: Net)
    requires PlanOk(pl) && ProgressOk(pl, pr) && WireOk(pl, pr, net) && pr.told == pl.members
    requires pl.acks.Keys == pl.members && Drained(pl, net)
    ensures pr.acked == pl.members
  {
    hide PlanOk, TrafficOf, Planned, Nearest;
    MessagesDiffer(pl);
    forall p | p in pl.members
      ensures p in pr.acked
    {
      AckIs(pl, p);
      assert TrafficOf(net, pl.acks[p]).copies == InFlight(pl, pr, pl.acks[p]);
    }
  }

  lemma MemberKeys(pl: Plan)
    requires PlanOk(pl)
    ensures KeysDistinct(pl.env.key, pl.members)
  {
    FewerKeysDistinct(pl.env.key, pl.members, pl.Everyone());
  }

  lemma LoggedIsTold(pl: Plan, nodes: map<Id, Node>, net: Net, p: Id)
    requires p in FloodOf(nodes, net, pl.notif).counters
    ensures p in nodes && Told(pl, nodes[p])
  {
  }

  lemma ReadyInFlight(pl: Plan, w: World, e: Edge)
    requires JoinInv(pl, w) && e in TrafficOf(w.net, pl.ready).copies
    requires pl.acks.Keys == pl.members && Drained(pl, w.net)
    ensures var pr := ProgressOf(pl, w.nodes); !pr.armed && !pr.seated
    ensures e == Edge(pl.entry, pl.newcomer) && pl.entry in pl.members && pl.newcomer in w.nodes
    ensures w.nodes[pl.newcomer].peers.Keys == pl.members && w.nodes[pl.newcomer].state != Connected
  {
    hide PlanOk, TrafficOf, NoticeOk, Planned, Told, Done, MemberOk, NewcomerOk, Drained;
    NewcomerIsNone(pl);
    MessagesDiffer(pl);
    DrainedIsAcquainted(pl, w);
    assert TrafficOf(w.net, pl.ready).copies == InFlight(pl, ProgressOf(pl, w.nodes), pl.ready);
  }

  lemma ReadyNodes(pl: Plan, nodes: map<Id, Node>, n: Node)
    requires PlanOk(pl) && NodesOk(pl, nodes) && NewcomerOk(pl, n)
    requires n.peers == nodes[pl.newcomer].peers && n.state == Connected && n.peers.Keys == pl.members
    ensures NodesOk(pl, nodes[pl.newcomer := n])
    ensures ProgressOf(pl, nodes[pl.newcomer := n]) == ProgressOf(pl, nodes).(seated := true)
  {
    hide PlanOk, MemberOk, NewcomerOk, Told, Done;
    NewcomerIsNone(pl);
    NewcomerMoves(pl, nodes, n);
  }

  lemma ReadyWorld(pl: Plan, w: World)
    requires PlanOk(pl) && pl.acks.Keys == pl.members && pl.entry in pl.addresses && pl.newcomer in pl.addresses
    requires pl.newcomer in w.nodes && pl.newcomer !in pl.members && pl.entry in pl.members
    requires var x := w.nodes[pl.newcomer]; NewcomerOk(pl, x) && x.peers.Keys == pl.members && x.state != Connected
    requires pl.ready in w.net && Edge(pl.entry, pl.newcomer) in w.net[pl.ready].copies && Drained(pl, w.net)
        && pl.ready.Ready?
    ensures CanStep(pl, w, Arrives(pl.ready, Edge(pl.entry, pl.newcomer)))
    ensures var w' := After(pl, w, Arrives(pl.ready, Edge(pl.entry, pl.newcomer))); var x := pl.newcomer;
            && NewcomerOnly(pl, w.nodes, w'.nodes)
            && w'.nodes[x].peers == w.nodes[x].peers && w'.nodes[x].state == Connected
            && w'.net == PostAll(Take(w.net, pl.ready, Edge(pl.entry, x)), x, [Sent(pl.readyNotif, Nearest(pl))])
  {
    hide PlanOk, NewcomerOk, Receive, CanReceive, SameEntry, PostAll, Take, Drained, Nearest;
    ReadyArrives(pl, w.nodes[pl.newcomer], pl.entry);
  }

  lemma ReadyStep(pl: Plan, w: World, e: Edge)
    requires JoinInv(pl, w) && e in TrafficOf(w.net, pl.ready).copies
    requires pl.acks.Keys == pl.members && Drained(pl, w.net)
    ensures Advances(pl, w, Arrives(pl.ready, e))
  {
    hide PlanOk, MemberOk, NewcomerOk, NodesOk, ProgressOf, ProgressOk, WireOk, FloodOf, CanStep, After, Moved,
      Advances,
      TrafficOf, Plan.Graph, Nearest, SameEntry, PostAll, Take, NoticeOk, NewcomerOnly, Drained;
    Parts(pl, w);
    ReadyInFlight(pl, w, e);
    NewcomerIsNone(pl);
    EveryoneIs(pl, pl.entry);
    MessagesDiffer(pl);
    InNet(w.net, pl.ready, e);
    var step, x, pr := Arrives(pl.ready, e), pl.newcomer, ProgressOf(pl, w.nodes);
    ReadyWorld(pl, w);
    var w' := After(pl, w, step);
    NewcomerOnlyIs(pl, w.nodes, w'.nodes);
    ReadyNodes(pl, w.nodes, w'.nodes[x]);
    ReadyMoves(pl, pr, e);
    SeatedOk(pl, w, pr);
    ReadyWire(pl, pr, w.net);
    FloodKept(pl, w, w', x);
    Arrived(pl, w, w', step);
  }

  lemma SeatedOk(pl: Plan, w: World, pr: Progress)
    requires JoinInv(pl, w) && pr == ProgressOf(pl, w.nodes) && pl.acks.Keys == pl.members && Drained(pl, w.net)
        && !pr.armed
    ensures ProgressOk(pl, pr.(seated := true))
  {
    hide PlanOk, NodesOk, WireOk, NoticeOk, ProgressOf, Drained;
    DrainedIsAcquainted(pl, w);
    Parts(pl, w);
  }

  // completions

  lemma DoneNodes(pl: Plan, nodes: map<Id, Node>, p: Id, n: Node)
    requires PlanOk(pl) && NodesOk(pl, nodes) && p in pl.members && MemberOk(pl, n, p)
    requires Told(pl, nodes[p]) && Told(pl, n) && Done(pl, n) && n.readyTimers == nodes[p].readyTimers
    ensures NodesOk(pl, nodes[p := n])
    ensures ProgressOf(pl, nodes[p := n]) == ProgressOf(pl, nodes).(done := ProgressOf(pl, nodes).done + {p})
  {
    hide PlanOk, MemberOk, NewcomerOk, Done;
    NewcomerIsNone(pl);
    MemberMoves(pl, nodes, p, n);
    ToldIs(pl, nodes, p);
    assert ProgressOf(pl, nodes).told + {p} == ProgressOf(pl, nodes).told;
  }

  lemma DoneMoves(pl: Plan, pr: Progress, p: Id)
    requires ProgressOk(pl, pr) && p in pr.told && (p in Nearest(pl) ==> pr.seated)
    ensures Moved(pl, pr, JoinDue(p)) == pr.(done := pr.done + {p})
    ensures pl.readyNotif != pl.notif && pl.readyNotif != pl.ready ==>
      forall e: Edge | e.to == p :: Moved(pl, pr, Arrives(pl.readyNotif, e)) == pr.(done := pr.done + {p})
    ensures ProgressOk(pl, pr.(done := pr.done + {p}))
  {
    hide Nearest;
  }

  lemma ReadyNotifInFlight(pl: Plan, w: World, e: Edge)
    requires JoinInv(pl, w) && e in TrafficOf(w.net, pl.readyNotif).copies
    ensures var pr := ProgressOf(pl, w.nodes);
            e == Edge(pl.newcomer, e.to) && e.to in pl.members && e.to in w.nodes && pr.seated
                && e.to in Nearest(pl) - pr.done
    ensures var n := w.nodes[e.to];
            && Told(pl, n) && !Done(pl, n) && Beside(n, pl.newcomer) && pl.newcomer in n.peers
            && e.to in ProgressOf(pl, w.nodes).told
  {
    hide PlanOk, TrafficOf, NoticeOk, Planned, Told, Done, MemberOk, NewcomerOk, Nearest, Fan, Beside;
    NewcomerIsNone(pl);
    MessagesDiffer(pl);
    NearestAreMembers(pl);
    var pr := ProgressOf(pl, w.nodes);
    assert TrafficOf(w.net, pl.readyNotif).copies == InFlight(pl, pr, pl.readyNotif);
    FanIs(pl.newcomer, Nearest(pl) - pr.done, e);
    BesideIsMutual(pl, w.nodes[e.to], e.to);
    ToldKnows(pl, w.nodes[e.to], e.to);
  }

  lemma ToldKnows(pl: Plan, n: Node, p: Id)
    requires PlanOk(pl) && p in pl.members && MemberOk(pl, n, p) && Told(pl, n)
    ensures pl.newcomer in n.peers
  {
    hide PlanOk;
    NewcomerIsNone(pl);
  }

  lemma FanIs(p: Id, ids: set<Id>, e: Edge)
    ensures e in multiset(Fan(p, ids)) <==> e.from == p && e.to in ids
  {
  }

  predicate IsNotice(pl: Plan, step: Step, p: Id) {
    step.Arrives? && step.message == pl.readyNotif && step.edge.to == p
  }

  /** Whichever way p comes to rely on the newcomer: only p changes. */
  ghost predicate Relied(pl: Plan, nodes: map<Id, Node>, p: Id, nodes': map<Id, Node>)
    requires PlanOk(pl) && p in pl.members && p in nodes
  {
    && p in nodes' && nodes' == nodes[p := nodes'[p]]
    && MemberOk(pl, nodes'[p], p) && Done(pl, nodes'[p]) && nodes'[p].readyTimers == nodes[p].readyTimers
    && SameEntry(nodes[p].log, nodes'[p].log, pl.notif.stamp)
  }

  lemma ReliedNodes(pl: Plan, nodes: map<Id, Node>, p: Id, nodes': map<Id, Node>)
    requires PlanOk(pl) && NodesOk(pl, nodes) && p in pl.members && Told(pl, nodes[p]) && Relied(pl, nodes, p, nodes')
    ensures NodesOk(pl, nodes') && nodes'.Keys == nodes.Keys && forall q | q in nodes && q != p :: nodes'[q] == nodes[q]
    ensures ProgressOf(pl, nodes') == ProgressOf(pl, nodes).(done := ProgressOf(pl, nodes).done + {p})
    ensures SameEntry(nodes[p].log, nodes'[p].log, pl.notif.stamp)
  {
    hide PlanOk, NodesOk, MemberOk, Told, Done, ProgressOf, SameEntry;
    assert nodes.Keys == pl.Everyone() by { NodesKeys(pl, nodes); }
    EveryoneIs(pl, p);
    SameToldness(pl, nodes[p], nodes'[p]);
    DoneNodes(pl, nodes, p, nodes'[p]);
  }

  lemma ReliedStep(pl: Plan, w: World, w': World, p: Id, step: Step)
    requires JoinInv(pl, w) && CanStep(pl, w, step) && w' == After(pl, w, step)
    requires p in pl.members && p in w.nodes && Told(pl, w.nodes[p]) && Relied(pl, w.nodes, p, w'.nodes)
    requires p in Nearest(pl) ==> ProgressOf(pl, w.nodes).seated
    requires step == JoinDue(p) || (pl.readyNotif != pl.notif && pl.readyNotif != pl.ready && IsNotice(pl, step, p))
    requires TrafficOf(w'.net, pl.notif) == TrafficOf(w.net, pl.notif)
    requires WireOk(pl, ProgressOf(pl, w.nodes).(done := ProgressOf(pl, w.nodes).done + {p}), w'.net)
    ensures Advances(pl, w, step)
  {
    hide PlanOk, NodesOk, ProgressOf, WireOk, FloodOf, After, CanStep, Told, Done, TrafficOf, Plan.Graph, Nearest,
      SameEntry,
      NoticeOk, ProgressOk, Relied, Advances;
    Parts(pl, w);
    NewcomerIsNone(pl);
    ReliedNodes(pl, w.nodes, p, w'.nodes);
    ToldIs(pl, w.nodes, p);
    DoneMoves(pl, ProgressOf(pl, w.nodes), p);
    FloodKept(pl, w, w', p);
    Arrived(pl, w, w', step);
  }

  lemma ReadyNotifStep(pl: Plan, w: World, e: Edge)
    requires JoinInv(pl, w) && e in TrafficOf(w.net, pl.readyNotif).copies
    ensures Advances(pl, w, Arrives(pl.readyNotif, e))
  {
    hide PlanOk, MemberOk, NewcomerOk, NodesOk, ProgressOf, ProgressOk, WireOk, FloodOf, Receive, CanReceive, Told,
      Done,
      TrafficOf, Plan.Graph, Nearest, SameEntry, PostAll, Take, NoticeOk, Beside, Advances;
    Parts(pl, w);
    ReadyNotifInFlight(pl, w, e);
    NewcomerIsNone(pl);
    MessagesDiffer(pl);
    InNet(w.net, pl.readyNotif, e);
    var step, p := Arrives(pl.readyNotif, e), e.to;
    NeighbourReady(pl, w.nodes[p], p);
    ReadyNotifWire(pl, ProgressOf(pl, w.nodes), w.net, p);
    ReliedStep(pl, w, After(pl, w, step), p, step);
  }

  lemma SameToldness(pl: Plan, a: Node, b: Node)
    requires SameEntry(a.log, b.log, pl.notif.stamp)
    ensures Told(pl, a) <==> Told(pl, b)
  {
  }

  lemma TimerWorld(pl: Plan, w: World, p: Id)
    requires PlanOk(pl) && pl.acks.Keys == pl.members && p in pl.members && pl.acks[p].JoinAck?
    requires p in w.nodes && MemberOk(pl, w.nodes[p], p) && pl.newcomer in w.nodes[p].joinTimers
    ensures CanStep(pl, w, JoinDue(p))
    ensures var w' := After(pl, w, JoinDue(p)); Relied(pl, w.nodes, p, w'.nodes) && w'.net == PostAll(w.net, p, [])
  {
    hide PlanOk, MemberOk, CompleteJoin, CanCheck, Told, Done, SameEntry, Beside, PostAll;
    TimerExpires(pl, w.nodes[p], p);
    ToldKnows(pl, w.nodes[p], p);
    SelfSame(w.nodes[p].log, pl.notif.stamp);
  }

  lemma TimerStep(pl: Plan, w: World, p: Id)
    requires JoinInv(pl, w) && p in w.nodes && p in pl.members && pl.newcomer in w.nodes[p].joinTimers
    ensures p !in Nearest(pl) && Advances(pl, w, JoinDue(p))
  {
    hide PlanOk, MemberOk, NewcomerOk, NodesOk, ProgressOf, ProgressOk, WireOk, CanStep, After, Told, Done,
      TrafficOf, Nearest, NoticeOk, Beside, Advances, Relied;
    Parts(pl, w);
    MessagesDiffer(pl);
    AckIs(pl, p);
    TimerExpires(pl, w.nodes[p], p);
    BesideIsMutual(pl, w.nodes[p], p);
    TimerWorld(pl, w, p);
    NewcomerIsNone(pl);
    TimerWire(pl, ProgressOf(pl, w.nodes), w.net, p);
    ReliedStep(pl, w, After(pl, w, JoinDue(p)), p, JoinDue(p));
  }

  // ---------------------------------------------------------- every run

  /** Whatever can happen next can be handled, keeps the invariant, and moves
      the join on. */
  lemma EnabledAdvances(pl: Plan, w: World, step: Step)
    requires JoinInv(pl, w) && pl.acks.Keys == pl.members && Enabled(pl, w, step)
    ensures Advances(pl, w, step)
  {
    hide NodesOk, ProgressOf, ProgressOk, NoticeOk, Advances, TrafficOf, Drained, Told;
    match step
    case ReadyDue => ReadySentStep(pl, w);
    case JoinDue(p) => TimerStep(pl, w, p);
    case Arrives(m, e) =>
      Parts(pl, w);
      MessagesDiffer(pl);
      TrafficIs(w.net, m);
      if m == pl.notif {
        NoticeEdge(pl, w, e);
        if Told(pl, w.nodes[e.to]) {
          LaterNoticeStep(pl, w, e);
        } else {
          FirstNoticeStep(pl, w, e);
        }
      } else if m == pl.ready {
        ReadyStep(pl, w, e);
      } else if m == pl.readyNotif {
        ReadyNotifStep(pl, w, e);
      } else {
        AckStep(pl, w, m.peerId, e);
      }
  }

  /** Besides the notification: acknowledgements under way, READY, members not
      done with the newcomer. */
  ghost function Left(pl: Plan, pr: Progress): nat {
    |pr.told - pr.acked| + (if pr.armed then 2 else if pr.seated then 0 else 1) + |pl.members - pr.done|
  }

  ghost function NoticeLeft(pl: Plan, w: World): nat {
    Floods.Measure(pl.Graph(), FloodOf(w.nodes, w.net, pl.notif))
  }

  /** How much is left to happen. */
  ghost function Remaining(pl: Plan, w: World): nat
    requires w.nodes.Keys == pl.Everyone() && pl.entry in pl.members
  {
    2 * NoticeLeft(pl, w) + Left(pl, ProgressOf(pl, w.nodes))
  }

  /** How often p counts the newcomer as connected because its timer expired. */
  function Timers(steps: seq<Step>, p: Id): nat {
    if steps == [] then 0 else (if steps[0] == JoinDue(p) then 1 else 0) + Timers(steps[1..], p)
  }

  /** How often because READY_NOTIF reached it. */
  function Notices(pl: Plan, steps: seq<Step>, p: Id): nat {
    if steps == [] then 0 else (if IsNotice(pl, steps[0], p) then 1 else 0) + Notices(pl, steps[1..], p)
  }

  /** What a step needs, in terms of progress. */
  lemma StepGuards(pl: Plan, w: World, step: Step)
    requires JoinInv(pl, w) && pl.acks.Keys == pl.members && Enabled(pl, w, step)
    ensures var pr := ProgressOf(pl, w.nodes);
            match step
            case ReadyDue => pr.armed
            case JoinDue(p) => p in pl.members && p !in pr.done && p !in Nearest(pl)
            case Arrives(m, e) =>
              if m == pl.notif then e in FloodOf(w.nodes, w.net, m).copies && e.to in pl.members
              else if m == pl.ready then !pr.armed && !pr.seated
              else if m == pl.readyNotif then e.to in pl.members && e.to !in pr.done && e.to in Nearest(pl)
              else e.from in pr.told - pr.acked
  {
    hide NodesOk, ProgressOf, ProgressOk, NoticeOk, TrafficOf, Drained, FloodOf, Nearest;
    Parts(pl, w);
    NewcomerIsNone(pl);
    match step
    case ReadyDue =>
      ArmedIs(pl, w.nodes);
    case JoinDue(p) =>
      TimerStep(pl, w, p);
      TimerExpires(pl, w.nodes[p], p);
      ToldIs(pl, w.nodes, p);
    case Arrives(m, e) =>
      MessagesDiffer(pl);
      TrafficIs(w.net, m);
      if m == pl.notif {
        NoticeEdge(pl, w, e);
      } else if m == pl.ready {
        ReadyInFlight(pl, w, e);
      } else if m == pl.readyNotif {
        ReadyNotifInFlight(pl, w, e);
      } else {
        AckInFlight(pl, w, m.peerId, e);
      }
  }

  lemma ArmedIs(pl: Plan, nodes: map<Id, Node>)
    requires nodes.Keys == pl.Everyone() && pl.entry in pl.members
    ensures ProgressOf(pl, nodes).armed <==> pl.newcomer in nodes[pl.entry].readyTimers
  {
  }

  lemma LeftAfter(pl: Plan, pr: Progress, step: Step)
    requires match step
             case ReadyDue => pr.armed && !pr.seated
             case JoinDue(p) => p in pl.members && p !in pr.done
             case Arrives(m, e) =>
               if m == pl.notif then true
               else if m == pl.ready then !pr.armed && !pr.seated
               else if m == pl.readyNotif then e.to in pl.members && e.to !in pr.done
               else e.from in pr.told - pr.acked
    ensures Left(pl, Moved(pl, pr, step))
            <= if step.Arrives? && step.message == pl.notif then Left(pl, pr) + 1 else Left(pl, pr) - 1
  {
    match step
    case ReadyDue =>
    case JoinDue(p) => OneLess(pl.members, pr.done, p);
    case Arrives(m, e) =>
      if m == pl.notif {
        OneMore(pr.told, pr.acked, e.to);
      } else if m == pl.ready {
      } else if m == pl.readyNotif {
        OneLess(pl.members, pr.done, e.to);
      } else {
        OneLess(pr.told, pr.acked, e.from);
      }
  }

  lemma OneLess(a: set<Id>, b: set<Id>, p: Id)
    requires p in a - b
    ensures |a - (b + {p})| == |a - b| - 1
  {
    assert a - b == (a - (b + {p})) + {p};
  }

  lemma OneMore(a: set<Id>, b: set<Id>, p: Id)
    ensures |(a + {p}) - b| <= |a - b| + 1
  {
    SmallerCount((a + {p}) - b, (a - b) + {p});
  }

  /** Every step leaves less to happen. */
  lemma StepLowers(pl: Plan, w: World, step: Step)
    requires JoinInv(pl, w) && pl.acks.Keys == pl.members && Enabled(pl, w, step)
    ensures Advances(pl, w, step) && pl.entry in pl.members
    ensures After(pl, w, step).nodes.Keys == w.nodes.Keys == pl.Everyone()
    ensures Remaining(pl, After(pl, w, step)) < Remaining(pl, w)
  {
    hide PlanOk, NodesOk, ProgressOf, WireOk, NoticeOk, Left, Measure, After, Moved, Enabled, Deliver, FloodOf, Nearest,
      CanStep, Plan.Graph;
    EnabledAdvances(pl, w, step);
    StepGuards(pl, w, step);
    Parts(pl, w);
    Parts(pl, After(pl, w, step));
    NewcomerIsNone(pl);
    var pr := ProgressOf(pl, w.nodes);
    LeftAfter(pl, pr, step);
    if step.Arrives? && step.message == pl.notif {
      NoticeLowers(pl, w, step.edge);
    }
  }

  lemma NoticeLowers(pl: Plan, w: World, e: Edge)
    requires JoinInv(pl, w) && e in FloodOf(w.nodes, w.net, pl.notif).copies
    ensures Measure(pl.Graph(), Deliver(pl.Graph(), {}, FloodOf(w.nodes, w.net, pl.notif), e)) < NoticeLeft(pl, w)
  {
    hide NodesOk, ProgressOk, WireOk, FloodOf, FloodInv, Measure, Deliver, PlanOk, Plan.Graph;
    Parts(pl, w);
    GraphIs(pl);
    InvShaped(pl.Graph(), {}, pl.entry, FloodOf(w.nodes, w.net, pl.notif));
    DeliverLowers(pl.Graph(), {}, FloodOf(w.nodes, w.net, pl.notif), e);
  }

  /** Any arrivals and expiries, in any order. */
  ghost predicate Runs(pl: Plan, w: World, steps: seq<Step>, end: World)
    requires pl.acks.Keys == pl.members
    decreases |steps|
  {
    if steps == [] then end == w
    else CanStep(pl, w, steps[0]) && Runs(pl, After(pl, w, steps[0]), steps[1..], end)
  }

  /** Over every run the invariant holds, and the run is short. */
  lemma {:induction false} RunKeeps(pl: Plan, w: World, steps: seq<Step>, end: World)
    requires JoinInv(pl, w) && pl.acks.Keys == pl.members && Runs(pl, w, steps, end)
    ensures JoinInv(pl, end) && pl.entry in pl.members && w.nodes.Keys == end.nodes.Keys == pl.Everyone()
    ensures |steps| + Remaining(pl, end) <= Remaining(pl, w)
    decreases |steps|
  {
    hide JoinInv, PlanOk, NodesOk, CanStep, After, Remaining, Plan.Everyone, Advances;
    Parts(pl, w);
    NewcomerIsNone(pl);
    if steps != [] {
      StepRuns(pl, w, steps[0]);
      StepLowers(pl, w, steps[0]);
      RunKeeps(pl, After(pl, w, steps[0]), steps[1..], end);
    }
  }

  /** Over every run, p comes to rely on the newcomer as often as it goes from
      not doing so to doing so: by its timer if they are not neighbours, by
      READY_NOTIF if they are. */
  lemma {:induction false} RunCompletes(pl: Plan, w: World, steps: seq<Step>, end: World, p: Id)
    requires JoinInv(pl, w) && pl.acks.Keys == pl.members && Runs(pl, w, steps, end) && p in pl.members
    ensures p in w.nodes && p in end.nodes
    ensures if p in Nearest(pl) then Timers(steps, p) == 0 else Notices(pl, steps, p) == 0
    ensures Once(Done(pl, end.nodes[p])) == Once(Done(pl, w.nodes[p])) + Timers(steps, p) + Notices(pl, steps, p)
    decreases |steps|
  {
    hide JoinInv, PlanOk, NodesOk, CanStep, After, Nearest, Plan.Everyone, Advances, Done, IsNotice, Enabled;
    Parts(pl, w);
    if steps != [] {
      var next := After(pl, w, steps[0]);
      StepCompletes(pl, w, steps[0], p);
      RunCompletes(pl, next, steps[1..], end, p);
    } else {
      EveryoneIs(pl, p);
    }
  }

  lemma StepCompletes(pl: Plan, w: World, step: Step, p: Id)
    requires JoinInv(pl, w) && pl.acks.Keys == pl.members && CanStep(pl, w, step) && p in pl.members
    ensures JoinInv(pl, After(pl, w, step)) && p in w.nodes && p in After(pl, w, step).nodes
    ensures if p in Nearest(pl) then step != JoinDue(p) else !IsNotice(pl, step, p)
    ensures Once(Done(pl, After(pl, w, step).nodes[p]))
            == Once(Done(pl, w.nodes[p])) + Once(step == JoinDue(p)) + Once(IsNotice(pl, step, p))
  {
    hide JoinInv, PlanOk, NodesOk, CanStep, After, Nearest, Advances, Done, ProgressOf, FloodOf, Moved;
    Parts(pl, w);
    NewcomerIsNone(pl);
    MessagesDiffer(pl);
    StepRuns(pl, w, step);
    StepGuards(pl, w, step);
    ToldIs(pl, w.nodes, p);
    ToldIs(pl, After(pl, w, step).nodes, p);
    DoneOnce(pl, ProgressOf(pl, w.nodes), step, p);
  }

  lemma StepRuns(pl: Plan, w: World, step: Step)
    requires pl.acks.Keys == pl.members && CanStep(pl, w, step) && JoinInv(pl, w)
    ensures Enabled(pl, w, step) && Advances(pl, w, step) && JoinInv(pl, After(pl, w, step))
    ensures w.nodes.Keys == pl.Everyone() && pl.entry in pl.members
    ensures After(pl, w, step).nodes.Keys == pl.Everyone()
    ensures ProgressOf(pl, After(pl, w, step).nodes) == Moved(pl, ProgressOf(pl, w.nodes), step)
  {
    hide JoinInv, PlanOk, NodesOk, Enabled, After, ProgressOf, Moved;
    EnabledAdvances(pl, w, step);
    Parts(pl, w);
    Parts(pl, After(pl, w, step));
    NewcomerIsNone(pl);
  }

  lemma DoneOnce(pl: Plan, pr: Progress, step: Step, p: Id)
    requires pl.notif != pl.readyNotif && pl.ready != pl.readyNotif
    requires step == JoinDue(p) || IsNotice(pl, step, p) ==> p !in pr.done
    ensures Once(p in Moved(pl, pr, step).done)
            == Once(p in pr.done) + Once(step == JoinDue(p)) + Once(IsNotice(pl, step, p))
  {
  }

  // -------------------------------------------------------- convergence

  ghost predicate Quiescent(pl: Plan, w: World)
    requires pl.acks.Keys == pl.members
  {
    forall step :: !Enabled(pl, w, step)
  }

  /** In the group of everyone, relying on all of them, and waiting for nobody. */
  ghost predicate Joined(pl: Plan, n: Node, p: Id) {
    && n.id == p && Settled(pl.env, n, pl.Everyone())
    && n.group.Some? && n.group.value.id == pl.groupId
    && (forall q | q in n.peers :: n.peers[q] == Connected)
    && NobodyKnown(n.newPeers) && n.joinToken && n.joinTimers == {}
  }

  /** What a join is for: everyone, the newcomer included, holds the same view,
      the same five rings, and the neighbours they give; the tokens are free. */
  ghost predicate Converged(pl: Plan, w: World) {
    && w.nodes.Keys == pl.Everyone()
    && (forall p | p in pl.Everyone() :: Joined(pl, w.nodes[p], p))
    && (forall p, q | p in pl.Everyone() && q in pl.Everyone() && w.nodes[p].group.Some? && w.nodes[q].group.Some? ::
      w.nodes[p].group.value.rings == w.nodes[q].group.value.rings)
    && pl.entry in w.nodes && pl.newcomer !in w.nodes[pl.entry].readyTimers
  }

  lemma NoCopies(pl: Plan, w: World, m: Msg)
    requires pl.acks.Keys == pl.members && Quiescent(pl, w) && (m == pl.ready ==> Drained(pl, w.net))
    ensures TrafficOf(w.net, m).copies == multiset{}
  {
    hide Drained, TrafficOf;
    if e :| e in TrafficOf(w.net, m).copies {
      assert !Enabled(pl, w, Arrives(m, e));
      InNet(w.net, m, e);
    }
  }

  lemma QuiescentIsDrained(pl: Plan, w: World)
    requires JoinInv(pl, w) && pl.acks.Keys == pl.members && Quiescent(pl, w)
    ensures Drained(pl, w.net)
  {
    hide JoinInv, Quiescent, PlanOk;
    Parts(pl, w);
    MessagesDiffer(pl);
    NoCopies(pl, w, pl.notif);
    forall p | p in pl.members
      ensures TrafficOf(w.net, pl.acks[p]).copies == multiset{}
    {
      AckIs(pl, p);
      NoCopies(pl, w, pl.acks[p]);
    }
  }

  /** With nothing left to do, READY has come, and every member knows it. */
  lemma QuiescentProgress(pl: Plan, w: World)
    requires JoinInv(pl, w) && pl.acks.Keys == pl.members && Quiescent(pl, w)
    ensures w.nodes.Keys == pl.Everyone() && pl.entry in pl.members
    ensures ProgressOf(pl, w.nodes) == Progress(pl.members, pl.members, pl.members, false, true)
  {
    hide PlanOk, NodesOk, MemberOk, NewcomerOk, NoticeOk, ProgressOf, Drained, Nearest, TrafficOf, Quiescent, Told,
      Done,
      Beside, JoinInv;
    Parts(pl, w);
    NewcomerIsNone(pl);
    MessagesDiffer(pl);
    QuiescentIsDrained(pl, w);
    DrainedIsAcquainted(pl, w);
    ArmedIs(pl, w.nodes);
    var pr := ProgressOf(pl, w.nodes);
    NoTimers(pl, w);
    NoCopies(pl, w, pl.ready);
    NoCopies(pl, w, pl.readyNotif);
    assert InFlight(pl, pr, pl.ready) == multiset{};
    assert pr.seated;
    assert InFlight(pl, pr, pl.readyNotif) == multiset{};
    forall p | p in pl.members
      ensures p in pr.done
    {
      ToldIs(pl, w.nodes, p);
      if p in Nearest(pl) {
        FanIs(pl.newcomer, Nearest(pl) - pr.done, Edge(pl.newcomer, p));
      } else {
        BesideIsMutual(pl, w.nodes[p], p);
        WaitsForSomething(pl, w.nodes[p], p);
      }
    }
    assert pr.done == pl.members;
  }

  lemma WaitsForSomething(pl: Plan, n: Node, p: Id)
    requires PlanOk(pl) && p in pl.members && MemberOk(pl, n, p) && Told(pl, n) && !Beside(n, pl.newcomer)
    ensures Done(pl, n) || pl.newcomer in n.joinTimers
  {
    hide PlanOk;
    AckIs(pl, p);
  }

  lemma NoTimers(pl: Plan, w: World)
    requires pl.acks.Keys == pl.members && Quiescent(pl, w) && w.nodes.Keys == pl.Everyone() && pl.entry in pl.members
    ensures pl.newcomer !in w.nodes[pl.entry].readyTimers
    ensures forall p | p in pl.members :: pl.newcomer !in w.nodes[p].joinTimers
  {
    hide Drained;
    assert !Enabled(pl, w, ReadyDue);
    forall p | p in pl.members
      ensures pl.newcomer !in w.nodes[p].joinTimers
    {
      assert !Enabled(pl, w, JoinDue(p));
    }
  }

  lemma MemberJoined(pl: Plan, n: Node, p: Id)
    requires PlanOk(pl) && p in pl.members && MemberOk(pl, n, p) && Told(pl, n) && Done(pl, n)
    ensures Joined(pl, n, p)
  {
    hide PlanOk, Coherent;
    NewcomerIsNone(pl);
    AckIs(pl, p);
  }

  lemma NewcomerJoined(pl: Plan, n: Node)
    requires PlanOk(pl) && NewcomerOk(pl, n) && n.state == Connected
    ensures Joined(pl, n, pl.newcomer)
  {
    hide PlanOk, RingsHold, CacheExact, MakeMarker;
    NewcomerIsNone(pl);
  }

  lemma JoinedAgree(pl: Plan, a: Node, b: Node, p: Id, q: Id)
    requires Joined(pl, a, p) && Joined(pl, b, q)
    ensures a.group.Some? && b.group.Some?
    ensures a.group.value.rings == b.group.value.rings
  {
    hide RingsHold, CacheExact, Coherent;
    SettledView(pl.env, a, pl.Everyone());
    SettledView(pl.env, b, pl.Everyone());
    SameMembersSameRings(pl.env.key, a.group.value, b.group.value, pl.Everyone());
  }

  /** Join convergence. */
  lemma QuiescentIsConverged(pl: Plan, w: World)
    requires JoinInv(pl, w) && pl.acks.Keys == pl.members && Quiescent(pl, w)
    ensures Converged(pl, w)
  {
    hide PlanOk, JoinInv, NodesOk, MemberOk, NewcomerOk, ProgressOf, ProgressOk, WireOk, NoticeOk, Quiescent, Joined,
      Settled;
    Parts(pl, w);
    NewcomerIsNone(pl);
    NoTimers(pl, w);
    forall p | p in pl.Everyone()
      ensures Joined(pl, w.nodes[p], p)
    {
      EachJoined(pl, w, p);
    }
    forall p, q | p in pl.Everyone() && q in pl.Everyone() && w.nodes[p].group.Some? && w.nodes[q].group.Some?
      ensures w.nodes[p].group.value.rings == w.nodes[q].group.value.rings
    {
      JoinedAgree(pl, w.nodes[p], w.nodes[q], p, q);
    }
  }

  lemma EachJoined(pl: Plan, w: World, p: Id)
    requires JoinInv(pl, w) && pl.acks.Keys == pl.members && Quiescent(pl, w) && p in pl.Everyone()
    ensures p in w.nodes && Joined(pl, w.nodes[p], p)
  {
    hide PlanOk, JoinInv, NodesOk, MemberOk, NewcomerOk, ProgressOf, ProgressOk, WireOk, NoticeOk, Quiescent, Joined,
      Told, Done;
    Parts(pl, w);
    NewcomerIsNone(pl);
    QuiescentProgress(pl, w);
    if p == pl.newcomer {
      AckedIs(pl, w.nodes);
      NewcomerJoined(pl, w.nodes[p]);
    } else {
      ToldIs(pl, w.nodes, p);
      MemberJoined(pl, w.nodes[p], p);
    }
  }
}
