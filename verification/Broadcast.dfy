/** Any number of data broadcasts at once, over a view that does not change,
    with some nodes that receive and never forward. */
module Broadcasts {
  import opened Bytes
  import opened Rings
  import opened Groups
  import opened Messages
  import opened Logs
  import opened Nodes
  import opened Invariants
  import opened Limits
  import opened Floods
  import opened Systems

  /** The nodes, the wire, and who originated each message on it. */
  datatype World = World(nodes: map<Id, Node>, net: Net, origin: map<Msg, Id>)

  /** What does not change: the hash, the members, their group, and who rides
      free. */
  datatype Setting = Setting(env: Env, members: set<Id>, groupId: Bytes, riders: set<Id>)
  {
    ghost function Graph(): Graph { RingGraph(env.key, members) }
  }

  /** A member with the whole view, and with everyone in it known. */
  ghost predicate Stable(s: Setting, n: Node, p: Id) {
    && n.id == p && Settled(s.env, n, s.members) && PeersKnown(n)
    && n.group.Some? && n.group.value.id == s.groupId
  }

  datatype Step =
    | Originates(origin: Id, content: Bytes, stamp: Bytes)
    | Arrives(message: Msg, edge: Edge, stamps: Stamps)

  /** A node broadcasts under a stamp nobody has seen; or a copy arrives. */
  ghost predicate Enabled(s: Setting, w: World, step: Step) {
    match step
    case Originates(o, _, stamp) =>
      o in s.members && forall p | p in w.nodes :: !w.nodes[p].log.Logged(stamp)
    case Arrives(m, e, st) => m in w.net && e in w.net[m].copies
  }

  /** The sends of a freerider are lost. */
  function Forwards(s: Setting, p: Id, sends: seq<Sent>): seq<Sent> {
    if p in s.riders then [] else sends
  }

  ghost predicate AllStable(s: Setting, w: World) {
    w.nodes.Keys == s.members && forall p | p in s.members :: Stable(s, w.nodes[p], p)
  }

  /** Every message on the wire is a data message of the group, stamped unlike
      the others, whose flood over the ring graph keeps its accounts. */
  ghost predicate WorldInv(s: Setting, w: World) {
    && KeysDistinct(s.env.key, s.members) && AllStable(s, w)
    && w.origin.Keys == w.net.Keys
    && (forall m | m in w.net :: OnWire(s, w, m))
    && (forall m, m' | m in w.net && m' in w.net && m.stamp == m'.stamp :: m == m')
    && TextsRight(w)
  }

  /** Whoever has logged a message of the wire has logged its text. */
  ghost predicate TextsRight(w: World) {
    forall m, p | m in w.net && p in w.nodes && w.nodes[p].log.Logged(m.stamp) ::
      w.nodes[p].log.entries[m.stamp].message == Serialize(m)
  }

  ghost predicate OnWire(s: Setting, w: World, m: Msg)
    requires m in w.origin
  {
    && m.Data? && m.marker == MakeMarker(s.env.h, s.groupId, s.groupId)
    && FloodInv(s.Graph(), s.riders, w.origin[m], FloodOf(w.nodes, w.net, m))
  }

  lemma StableFacts(s: Setting, n: Node, p: Id)
    requires Stable(s, n, p)
    ensures p in s.members && HasOwnMarker(s.env, n) && n.peers.Keys == s.members - {p}
    ensures n.group.value.successors == s.Graph().Succ(p) && n.group.value.predecessors == s.Graph().Pred(p)
  {
    hide RingsHold, MakeMarker, Succs, Preds;
    SettledView(s.env, n, s.members);
    RingGraphEdges(s.env.key, s.members, p);
  }

  lemma LogKeepsStable(s: Setting, n: Node, p: Id, log: Log)
    requires Stable(s, n, p)
    ensures Stable(s, n.(log := log), p)
  {
    hide RingsHold, CacheExact, MakeMarker;
    assert OnRings(n.(log := log)) == OnRings(n);
  }

  lemma EdgeIsPeer(s: Setting, n: Node, e: Edge)
    requires Stable(s, n, e.to) && e in s.Graph().edges
    ensures e.from in n.peers && Known(n, Member(e.from))
  {
    hide RingsHold, CacheExact, MakeMarker, IsNext;
    StableFacts(s, n, e.to);
    NotOwnSuccessor(s.env.key, s.members, e.from);
  }

  /** A data message at a stable member: credited, and if new logged and passed
      on to its successors in the graph. */
  lemma DataArrives(s: Setting, n: Node, m: Msg, e: Edge, st: Stamps)
    requires Stable(s, n, e.to) && e in s.Graph().edges
    requires m.Data? && m.marker == MakeMarker(s.env.h, s.groupId, s.groupId)
    ensures CanReceive(s.env, n, Member(e.from), m, st)
    ensures var o := Receive(s.env, n, Member(e.from), m, st);
            && o.node == n.(log := o.node.log) && o.node.log.Logged(m.stamp)
            && o.node.log.entries[m.stamp].control
               == Credit(if n.log.Logged(m.stamp) then n.log.entries[m.stamp].control
                         else Zeros(s.Graph().Pred(e.to)),
                         e.from)
            && o.node.log.entries[m.stamp].message
               == (if n.log.Logged(m.stamp) then n.log.entries[m.stamp].message else Serialize(m))
            && (forall t | t != m.stamp :: SameEntry(n.log, o.node.log, t))
            && o.sends == if n.log.Logged(m.stamp) then [] else [Sent(m, s.Graph().Succ(e.to))]
  {
    hide Stable, Serialize, MakeMarker, Graph.Succ, Graph.Pred;
    StableFacts(s, n, e.to);
    EdgeIsPeer(s, n, e);
    assert n.group.value.id == s.groupId by { StableGroup(s, n, e.to); }
  }

  lemma StableGroup(s: Setting, n: Node, p: Id)
    requires Stable(s, n, p)
    ensures n.group.Some? && n.group.value.id == s.groupId && n.id == p
  {
  }

  ghost predicate CanStep(s: Setting, w: World, step: Step) {
    && Enabled(s, w, step)
    && match step
       case Originates(o, _, _) =>
         o in w.nodes && HasOwnMarker(s.env, w.nodes[o]) && w.nodes[o].group.value.id == s.groupId
       case Arrives(m, e, st) => e.to in w.nodes && CanReceive(s.env, w.nodes[e.to], Member(e.from), m, st)
  }

  function OwnMarker(s: Setting): Bytes { MakeMarker(s.env.h, s.groupId, s.groupId) }

  ghost function After(s: Setting, w: World, step: Step): World
    requires CanStep(s, w, step)
  {
    match step
    case Originates(o, content, stamp) =>
      var m := Data(stamp, OwnMarker(s), content);
      var out := BroadcastData(s.env, w.nodes[o], content, stamp);
      World(w.nodes[o := out.node],
            PostAll(w.net[m := TrafficOf(w.net, m)], o, Forwards(s, o, out.sends)),
            w.origin[m := o])
    case Arrives(m, e, st) =>
      var out := Receive(s.env, w.nodes[e.to], Member(e.from), m, st);
      World(w.nodes[e.to := out.node],
            PostAll(Take(w.net, m, e), e.to, Forwards(s, e.to, out.sends)),
            w.origin)
  }

  lemma CopyEdge(s: Setting, w: World, m: Msg, e: Edge)
    requires WorldInv(s, w) && m in w.net && e in w.net[m].copies
    ensures e in s.Graph().edges && e.from in s.members && e.to in s.members
  {
    hide FloodOf;
    assert OnWire(s, w, m);
    assert FloodOf(w.nodes, w.net, m).copies == w.net[m].copies by { FloodCopies(w.nodes, w.net, m); }
    assert GraphOk(s.Graph()) by { RingGraphOk(s.env.key, s.members); }
  }

  lemma EnabledCanStep(s: Setting, w: World, step: Step)
    requires WorldInv(s, w) && Enabled(s, w, step)
    ensures CanStep(s, w, step)
  {
    hide Stable, OnWire, MakeMarker, CanReceive;
    match step
    case Originates(o, _, _) =>
      StableFacts(s, w.nodes[o], o);
      StableGroup(s, w.nodes[o], o);
    case Arrives(m, e, st) =>
      CopyEdge(s, w, m, e);
      WireIsData(s, w, m);
      DataArrives(s, w.nodes[e.to], m, e, st);
  }

  lemma WireIsData(s: Setting, w: World, m: Msg)
    requires WorldInv(s, w) && m in w.net
    ensures m.Data? && m.marker == MakeMarker(s.env.h, s.groupId, s.groupId)
  {
    assert OnWire(s, w, m);
  }

  /** The traffic after an arrival: one copy less, and for the message that
      arrived the copies passed on. */
  lemma TrafficAfterArrival(s: Setting, net: Net, m: Msg, e: Edge, new_: bool)
    requires m in net
    ensures var sends := if new_ then [Sent(m, s.Graph().Succ(e.to))] else [];
            var net' := PostAll(Take(net, m, e), e.to, Forwards(s, e.to, sends));
            && net'.Keys == net.Keys
            && PassedOn(TrafficOf(net, m), TrafficOf(net', m), e, s.Graph(), new_ && e.to !in s.riders)
            && forall m' | m' != m :: TrafficOf(net', m') == TrafficOf(net, m')
  {
    hide Fan, Graph.Succ;
    PostSingle(Take(net, m, e), e.to, Sent(m, s.Graph().Succ(e.to)));
  }

  /** An arrival delivers one copy of its own flood and leaves the others be. */
  lemma ArrivalFloods(s: Setting, w: World, m: Msg, e: Edge, st: Stamps)
    requires WorldInv(s, w) && Enabled(s, w, Arrives(m, e, st)) && CanStep(s, w, Arrives(m, e, st))
    ensures var w' := After(s, w, Arrives(m, e, st));
            && AllStable(s, w') && w'.net.Keys == w.net.Keys && w'.origin == w.origin
            && FloodOf(w'.nodes, w'.net, m) == Deliver(s.Graph(), s.riders, FloodOf(w.nodes, w.net, m), e)
            && forall m' | m' in w.net && m' != m :: FloodOf(w'.nodes, w'.net, m') == FloodOf(w.nodes, w.net, m')
  {
    hide Stable, FloodOf, Receive, CanReceive, PostAll, Take, TrafficOf, PassedOn, SameEntry, MakeMarker, FloodInv,
      KeysDistinct;
    var w' := After(s, w, Arrives(m, e, st));
    var n, n' := w.nodes[e.to], w'.nodes[e.to];
    CopyEdge(s, w, m, e);
    WireIsData(s, w, m);
    DataArrives(s, n, m, e, st);
    LogKeepsStable(s, n, e.to, n'.log);
    TrafficAfterArrival(s, w.net, m, e, !n.log.Logged(m.stamp));
    SameElsewhere(w.nodes, w'.nodes, e.to, m.stamp);
    ArrivalIsDelivery(w.nodes, w.net, w'.nodes, w'.net, m, e, s.Graph(), s.riders);
    forall m' | m' in w.net && m' != m
      ensures FloodOf(w'.nodes, w'.net, m') == FloodOf(w.nodes, w.net, m')
    {
      FloodElsewhere(w.nodes, w.net, w'.nodes, w'.net, m', e.to);
    }
  }

  lemma ArrivalKeeps(s: Setting, w: World, m: Msg, e: Edge, st: Stamps)
    requires WorldInv(s, w) && Enabled(s, w, Arrives(m, e, st)) && CanStep(s, w, Arrives(m, e, st))
    ensures WorldInv(s, After(s, w, Arrives(m, e, st)))
  {
    hide AllStable, FloodOf, After, CanStep, TrafficOf, MakeMarker, FloodInv, KeysDistinct, Setting.Graph, TextsRight;
    var w' := After(s, w, Arrives(m, e, st));
    ArrivalFloods(s, w, m, e, st);
    ArrivalTexts(s, w, m, e, st);
    RingGraphIs(s);
    RingGraphOk(s.env.key, s.members);
    assert OnWire(s, w, m);
    FloodCopies(w.nodes, w.net, m);
    TrafficIs(w.net, m);
    DeliverInv(s.Graph(), s.riders, w.origin[m], FloodOf(w.nodes, w.net, m), e);
    forall m' | m' in w'.net
      ensures OnWire(s, w', m')
    {
      assert OnWire(s, w, m');
    }
  }

  lemma ArrivalTexts(s: Setting, w: World, m: Msg, e: Edge, st: Stamps)
    requires WorldInv(s, w) && Enabled(s, w, Arrives(m, e, st)) && CanStep(s, w, Arrives(m, e, st))
    ensures TextsRight(After(s, w, Arrives(m, e, st)))
  {
    hide Stable, FloodOf, Receive, CanReceive, TrafficOf, MakeMarker, FloodInv, KeysDistinct, Serialize, Setting.Graph;
    ArrivalFloods(s, w, m, e, st);
    CopyEdge(s, w, m, e);
    WireIsData(s, w, m);
    DataArrives(s, w.nodes[e.to], m, e, st);
    var w' := After(s, w, Arrives(m, e, st));
    forall m', p | m' in w'.net && p in w'.nodes && w'.nodes[p].log.Logged(m'.stamp)
      ensures w'.nodes[p].log.entries[m'.stamp].message == Serialize(m')
    {
      if p == e.to && m' != m {
        assert SameEntry(w.nodes[p].log, w'.nodes[p].log, m'.stamp);
      }
    }
  }

  lemma RingGraphIs(s: Setting)
    ensures s.Graph() == RingGraph(s.env.key, s.members)
  {
  }

  lemma DataOriginates(s: Setting, n: Node, o: Id, content: Bytes, stamp: Bytes)
    requires Stable(s, n, o) && HasOwnMarker(s.env, n) && n.group.value.id == s.groupId && !n.log.Logged(stamp)
    ensures var m := Data(stamp, OwnMarker(s), content);
            var out := BroadcastData(s.env, n, content, stamp);
            && Stable(s, out.node, o) && out.sends == [Sent(m, s.Graph().Succ(o))]
            && out.node.log.Logged(stamp) && out.node.log.entries[stamp].control == Zeros(s.Graph().Pred(o))
            && out.node.log.entries[stamp].message == Serialize(m)
            && forall t | t != stamp :: SameEntry(n.log, out.node.log, t)
  {
    hide Stable, MakeMarker, Serialize, Setting.Graph, Graph.Succ, Graph.Pred;
    StableFacts(s, n, o);
    LogKeepsStable(s, n, o, BroadcastData(s.env, n, content, stamp).node.log);
  }

  lemma WireStampsLogged(s: Setting, w: World, m: Msg)
    requires WorldInv(s, w) && m in w.net
    ensures exists p :: p in w.nodes && w.nodes[p].log.Logged(m.stamp)
  {
    hide FloodInv, FloodOf;
    assert OnWire(s, w, m);
    FloodCopies(w.nodes, w.net, m);
    OriginHasLogged(s, w.origin[m], FloodOf(w.nodes, w.net, m));
  }

  lemma TrafficAfterOrigination(s: Setting, net: Net, m: Msg, o: Id)
    requires m !in net
    ensures var net' := PostAll(net[m := TrafficOf(net, m)], o, Forwards(s, o, [Sent(m, s.Graph().Succ(o))]));
            && net'.Keys == net.Keys + {m}
            && (forall m' | m' != m :: TrafficOf(net', m') == TrafficOf(net, m'))
            && var t := TrafficOf(net', m);
               if o in s.riders then t == Traffic(multiset{}, 0)
               else t.copies == multiset(Fan(o, s.Graph().Succ(o))) && t.sent == |s.Graph().Succ(o)|
  {
    hide Fan, Graph.Succ;
    PostSingle(net[m := TrafficOf(net, m)], o, Sent(m, s.Graph().Succ(o)));
  }

  /** A broadcast starts a flood of its own and leaves the others be. */
  lemma OriginationFloods(s: Setting, w: World, o: Id, content: Bytes, stamp: Bytes)
    requires WorldInv(s, w) && Enabled(s, w, Originates(o, content, stamp))
    requires CanStep(s, w, Originates(o, content, stamp))
    ensures var w' := After(s, w, Originates(o, content, stamp));
            var m := Data(stamp, OwnMarker(s), content);
            && AllStable(s, w') && w'.net.Keys == w.net.Keys + {m} && w'.origin == w.origin[m := o] && m !in w.net
            && (forall m' | m' in w.net :: m'.stamp != stamp)
            && FloodOf(w'.nodes, w'.net, m) == Start(s.Graph(), s.riders, o)
            && forall m' | m' in w.net :: FloodOf(w'.nodes, w'.net, m') == FloodOf(w.nodes, w.net, m')
  {
    hide Stable, FloodOf, OnWire, TrafficOf, HasOwnMarker, SameEntry, KeysDistinct, Start, Fan, Zeros, After, CanStep;
    var m := Data(stamp, OwnMarker(s), content);
    var w' := After(s, w, Originates(o, content, stamp));
    forall m' | m' in w.net
      ensures m'.stamp != stamp
    {
      WireStampsLogged(s, w, m');
    }
    OriginationWorld(s, w, o, content, stamp);
    forall m' | m' in w.net
      ensures FloodOf(w'.nodes, w'.net, m') == FloodOf(w.nodes, w.net, m')
    {
      FloodElsewhere(w.nodes, w.net, w'.nodes, w'.net, m', o);
    }
    StartMatches(s, w, w', m, o);
  }

  /** The world a broadcast leads to: only its origin changes, and only its own
      message's traffic. */
  lemma OriginationWorld(s: Setting, w: World, o: Id, content: Bytes, stamp: Bytes)
    requires AllStable(s, w) && Enabled(s, w, Originates(o, content, stamp))
    requires CanStep(s, w, Originates(o, content, stamp))
    requires Data(stamp, OwnMarker(s), content) !in w.net
    ensures var w' := After(s, w, Originates(o, content, stamp));
            var m := Data(stamp, OwnMarker(s), content);
            && AllStable(s, w') && w'.nodes.Keys == w.nodes.Keys && o in w.nodes
            && (forall p | p in w.nodes && p != o :: w'.nodes[p] == w.nodes[p])
            && (forall t | t != stamp :: SameEntry(w.nodes[o].log, w'.nodes[o].log, t))
            && w'.nodes[o].log.Logged(stamp) && w'.nodes[o].log.entries[stamp].control == Zeros(s.Graph().Pred(o))
            && w'.net.Keys == w.net.Keys + {m} && w'.origin == w.origin[m := o]
            && (forall m' | m' != m :: TrafficOf(w'.net, m') == TrafficOf(w.net, m'))
            && var t := TrafficOf(w'.net, m);
               if o in s.riders then t == Traffic(multiset{}, 0)
               else t.copies == multiset(Fan(o, s.Graph().Succ(o))) && t.sent == |s.Graph().Succ(o)|
  {
    hide Stable, PostAll, TrafficOf, BroadcastData, HasOwnMarker, OwnMarker, SameEntry, Fan, Zeros, Setting.Graph,
      Graph.Succ, Graph.Pred;
    DataOriginates(s, w.nodes[o], o, content, stamp);
    TrafficAfterOrigination(s, w.net, Data(stamp, OwnMarker(s), content), o);
  }

  lemma OriginHasLogged(s: Setting, o: Id, f: Flood)
    requires FloodInv(s.Graph(), s.riders, o, f)
    ensures o in f.counters
  {
  }

  lemma StartMatches(s: Setting, w: World, w': World, m: Msg, o: Id)
    requires o in w.nodes && w'.nodes.Keys == w.nodes.Keys
    requires forall p | p in w.nodes :: !w.nodes[p].log.Logged(m.stamp)
    requires forall p | p in w.nodes && p != o :: w'.nodes[p] == w.nodes[p]
    requires w'.nodes[o].log.Logged(m.stamp) && w'.nodes[o].log.entries[m.stamp].control == Zeros(s.Graph().Pred(o))
    requires var t := TrafficOf(w'.net, m);
             if o in s.riders then t == Traffic(multiset{}, 0)
             else t.copies == multiset(Fan(o, s.Graph().Succ(o))) && t.sent == |s.Graph().Succ(o)|
    ensures FloodOf(w'.nodes, w'.net, m) == Start(s.Graph(), s.riders, o)
  {
    hide Zeros, Fan, TrafficOf;
    CountersUpdate(w.nodes, w'.nodes, m.stamp, o);
    assert CountersOf(w.nodes, m.stamp) == map[];
    assert multiset{} + multiset(Fan(o, s.Graph().Succ(o))) == multiset(Fan(o, s.Graph().Succ(o)));
  }

  lemma OriginationKeeps(s: Setting, w: World, o: Id, content: Bytes, stamp: Bytes)
    requires WorldInv(s, w) && Enabled(s, w, Originates(o, content, stamp))
    requires CanStep(s, w, Originates(o, content, stamp))
    ensures WorldInv(s, After(s, w, Originates(o, content, stamp)))
  {
    hide AllStable, FloodOf, After, CanStep, MakeMarker, FloodInv, KeysDistinct, Setting.Graph, TextsRight;
    var w' := After(s, w, Originates(o, content, stamp));
    var m := Data(stamp, OwnMarker(s), content);
    OriginationFloods(s, w, o, content, stamp);
    OriginationTexts(s, w, o, content, stamp);
    RingGraphIs(s);
    RingGraphOk(s.env.key, s.members);
    assert o in s.Graph().nodes;
    StartInv(s.Graph(), s.riders, o);
    forall m' | m' in w'.net
      ensures OnWire(s, w', m')
    {
      assert m' != m ==> OnWire(s, w, m');
    }
  }

  lemma OriginationTexts(s: Setting, w: World, o: Id, content: Bytes, stamp: Bytes)
    requires WorldInv(s, w) && Enabled(s, w, Originates(o, content, stamp))
    requires CanStep(s, w, Originates(o, content, stamp))
    ensures TextsRight(After(s, w, Originates(o, content, stamp)))
  {
    hide Stable, FloodOf, BroadcastData, HasOwnMarker, TrafficOf, MakeMarker, FloodInv, KeysDistinct, Serialize,
      Setting.Graph, OwnMarker;
    OriginationFloods(s, w, o, content, stamp);
    DataOriginates(s, w.nodes[o], o, content, stamp);
    var w' := After(s, w, Originates(o, content, stamp));
    forall m', p | m' in w'.net && p in w'.nodes && w'.nodes[p].log.Logged(m'.stamp)
      ensures w'.nodes[p].log.entries[m'.stamp].message == Serialize(m')
    {
      if p == o && m'.stamp != stamp {
        assert SameEntry(w.nodes[p].log, w'.nodes[p].log, m'.stamp);
      }
    }
  }

  lemma StepKeeps(s: Setting, w: World, step: Step)
    requires WorldInv(s, w) && CanStep(s, w, step)
    ensures WorldInv(s, After(s, w, step))
  {
    hide WorldInv;
    match step
    case Originates(o, content, stamp) => OriginationKeeps(s, w, o, content, stamp);
    case Arrives(m, e, st) => ArrivalKeeps(s, w, m, e, st);
  }

  // ------------------------------------------------------------ every run

  /** Any broadcasts and any arrivals, in any order. */
  ghost predicate Runs(s: Setting, w: World, steps: seq<Step>, end: World)
    decreases |steps|
  {
    if steps == [] then end == w
    else CanStep(s, w, steps[0]) && Runs(s, After(s, w, steps[0]), steps[1..], end)
  }

  /** How many copies of m arrive in these steps. */
  function ArrivalsOf(steps: seq<Step>, m: Msg): nat {
    if steps == [] then 0
    else (if steps[0].Arrives? && steps[0].message == m then 1 else 0) + ArrivalsOf(steps[1..], m)
  }

  lemma StepLowers(s: Setting, w: World, step: Step, m: Msg)
    requires WorldInv(s, w) && CanStep(s, w, step) && m in w.net
    ensures var w' := After(s, w, step);
            && m in w'.net
            && Measure(s.Graph(), FloodOf(w'.nodes, w'.net, m)) + ArrivalsOf([step], m)
               <= Measure(s.Graph(), FloodOf(w.nodes, w.net, m))
  {
    hide AllStable, FloodOf, After, MakeMarker, FloodInv, KeysDistinct, Measure, Setting.Graph, CanReceive,
      HasOwnMarker;
    assert ArrivalsOf([step], m) == if step.Arrives? && step.message == m then 1 else 0 by {
      assert [step][1..] == [];
    }
    match step
    case Originates(o, content, stamp) => OriginationFloods(s, w, o, content, stamp);
    case Arrives(m', e, st) =>
      ArrivalFloods(s, w, m', e, st);
      if m' == m {
        RingGraphIs(s);
        RingGraphOk(s.env.key, s.members);
        assert OnWire(s, w, m);
        InvShaped(s.Graph(), s.riders, w.origin[m], FloodOf(w.nodes, w.net, m));
        FloodCopies(w.nodes, w.net, m);
        TrafficIs(w.net, m);
        DeliverLowers(s.Graph(), s.riders, FloodOf(w.nodes, w.net, m), e);
      }
  }

  /** In every run, however broadcasts and arrivals interleave: the accounts of
      every message hold throughout, and each message arrives only so often. */
  lemma {:induction false} RunKeeps(s: Setting, w: World, steps: seq<Step>, end: World)
    requires WorldInv(s, w) && Runs(s, w, steps, end)
    ensures WorldInv(s, end)
    ensures forall m | m in w.net ::
      m in end.net && ArrivalsOf(steps, m) + Measure(s.Graph(), FloodOf(end.nodes, end.net, m))
                      <= Measure(s.Graph(), FloodOf(w.nodes, w.net, m))
    decreases |steps|
  {
    hide CanStep, After, Measure, FloodOf, OnWire, AllStable, KeysDistinct;
    if steps != [] {
      StepKeeps(s, w, steps[0]);
      RunKeeps(s, After(s, w, steps[0]), steps[1..], end);
      forall m | m in w.net
        ensures m in end.net && ArrivalsOf(steps, m) + Measure(s.Graph(), FloodOf(end.nodes, end.net, m))
                                <= Measure(s.Graph(), FloodOf(w.nodes, w.net, m))
      {
        StepLowers(s, w, steps[0], m);
        assert ArrivalsOf([steps[0]], m) == if steps[0].Arrives? && steps[0].message == m then 1 else 0 by {
          assert [steps[0]][1..] == [];
        }
      }
    }
  }

  lemma WireFlood(s: Setting, w: World, m: Msg) returns (f: Flood)
    requires WorldInv(s, w) && m in w.net && w.net[m].copies == multiset{}
    ensures f == FloodOf(w.nodes, w.net, m) && f.copies == multiset{} && f.sent == w.net[m].sent
    ensures GraphOk(s.Graph()) && s.Graph() == RingGraph(s.env.key, s.members)
    ensures FloodInv(s.Graph(), s.riders, w.origin[m], f)
  {
    hide AllStable, FloodInv, KeysDistinct, FloodOf;
    RingGraphOk(s.env.key, s.members);
    assert OnWire(s, w, m);
    FloodCopies(w.nodes, w.net, m);
    f := FloodOf(w.nodes, w.net, m);
  }

  /** Once no copy of a message is left: exactly the members reachable from its
      origin through forwarding members have logged it, each one's counters say
      of every predecessor whether it forwarded, and it cost at most five
      transmissions a member. */
  lemma SettledBroadcast(s: Setting, w: World, m: Msg)
    requires WorldInv(s, w) && m in w.net && w.net[m].copies == multiset{}
    ensures Complete(s.Graph(), s.riders, w.origin[m], FloodOf(w.nodes, w.net, m))
    ensures w.net[m].sent <= RINGS_NB * |s.members|
  {
    hide FloodInv, FloodOf, GraphOk, Complete, OnWire, AllStable, KeysDistinct;
    var f := WireFlood(s, w, m);
    QuiescentIsComplete(s.Graph(), s.riders, w.origin[m], f);
    CompleteCost(s.Graph(), s.riders, w.origin[m], f);
  }

  /** Whatever came of a broadcast so far: whoever has it in its history reads
      there, marker and content included, what its origin broadcast. */
  lemma LoggedIsBroadcast(s: Setting, w: World, m: Msg, p: Id, before: Port)
    requires WorldInv(s, w) && m in w.net && p in s.members && w.nodes[p].log.Logged(m.stamp)
    requires |m.stamp| == MSG_STAMP_LENGTH
    ensures Parse(w.nodes[p].log.entries[m.stamp].message, before) == Success(m)
  {
    hide Stable, FloodInv, KeysDistinct, FloodOf, Setting.Graph, Parse, Serialize;
    WireIsData(s, w, m);
    MarkerIsDigest(s);
    RoundTrip(m, before);
  }

  lemma MarkerIsDigest(s: Setting)
    ensures |MakeMarker(s.env.h, s.groupId, s.groupId)| == BCAST_MARKER_LENGTH
  {
  }

  /** With nobody riding free, everyone has it, once from each predecessor, and
      reads what its origin broadcast. */
  lemma EveryoneReceives(s: Setting, w: World, m: Msg, p: Id)
    requires WorldInv(s, w) && m in w.net && w.net[m].copies == multiset{} && s.riders == {} && p in s.members
    ensures w.nodes[p].log.Logged(m.stamp) && w.nodes[p].group.Some?
    ensures w.nodes[p].log.entries[m.stamp].control == map q | q in w.nodes[p].group.value.predecessors :: 1
    ensures |m.stamp| == MSG_STAMP_LENGTH ==>
      forall before: Port :: Parse(w.nodes[p].log.entries[m.stamp].message, before) == Success(m)
  {
    hide Stable, FloodInv, KeysDistinct, FloodOf, OnWire, Preds, Succs, Setting.Graph, TextsRight, Parse, Serialize;
    var f := WireFlood(s, w, m);
    RingFloodReachesAll(s.env.key, s.members, w.origin[m], f);
    FloodCopies(w.nodes, w.net, m);
    StableGroup(s, w.nodes[p], p);
    StableFacts(s, w.nodes[p], p);
    RingGraphEdges(s.env.key, s.members, p);
    CountersAre(w.nodes, w.net, m, p);
    if |m.stamp| == MSG_STAMP_LENGTH {
      forall before: Port
        ensures Parse(w.nodes[p].log.entries[m.stamp].message, before) == Success(m)
      {
        LoggedIsBroadcast(s, w, m, p, before);
      }
    }
  }

  lemma CountersAre(nodes: map<Id, Node>, net: Net, m: Msg, p: Id)
    requires p in FloodOf(nodes, net, m).counters
    ensures p in nodes && nodes[p].log.Logged(m.stamp)
    ensures FloodOf(nodes, net, m).counters[p] == nodes[p].log.entries[m.stamp].control
  {
  }

  lemma CompleteCost(g: Graph, riders: set<Id>, o: Id, f: Flood)
    requires Complete(g, riders, o, f)
    ensures f.sent <= RINGS_NB * |g.nodes|
  {
  }
}
