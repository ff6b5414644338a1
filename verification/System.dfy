/** Many nodes, and the copies in flight between them. */
module Systems {
  import opened Bytes
  import opened Rings
  import opened Groups
  import opened Messages
  import opened Logs
  import opened Nodes
  import opened Floods

  /** The copies of one message: those in flight, and how many were ever sent. */
  datatype Traffic = Traffic(copies: multiset<Edge>, sent: nat)

  type Net = map<Msg, Traffic>

  function TrafficOf(net: Net, m: Msg): Traffic {
    if m in net then net[m] else Traffic(multiset{}, 0)
  }

  /** One message written to some peers. */
  function PostOne(net: Net, p: Id, s: Sent): Net {
    var t := TrafficOf(net, s.message);
    net[s.message := Traffic(t.copies + multiset(Fan(p, s.to)), t.sent + |s.to|)]
  }

  function PostAll(net: Net, p: Id, sends: seq<Sent>): Net
    decreases |sends|
  {
    if sends == [] then net else PostAll(PostOne(net, p, sends[0]), p, sends[1..])
  }

  /** One copy taken off the wire. */
  function Take(net: Net, m: Msg, e: Edge): Net
    requires m in net
  {
    net[m := net[m].(copies := net[m].copies - multiset{e})]
  }

  /** Who has logged this stamp, with their counters. */
  ghost function CountersOf(nodes: map<Id, Node>, stamp: Bytes): map<Id, Control> {
    map p | p in nodes && nodes[p].log.Logged(stamp) :: nodes[p].log.entries[stamp].control
  }

  /** The flood of one message, read off the logs and the wire. */
  ghost function FloodOf(nodes: map<Id, Node>, net: Net, m: Msg): Flood {
    Flood(CountersOf(nodes, m.stamp), TrafficOf(net, m).copies, TrafficOf(net, m).sent)
  }

  /** Whoever a node knows, it knows by name. */
  ghost predicate PeersKnown(n: Node) {
    forall p | p in n.peers :: n.peers[p] != New
  }

  lemma FloodUntouched(nodes: map<Id, Node>, net: Net, nodes': map<Id, Node>, net': Net, m: Msg)
    requires nodes'.Keys == nodes.Keys && TrafficOf(net', m) == TrafficOf(net, m)
    requires forall p | p in nodes :: SameEntry(nodes[p].log, nodes'[p].log, m.stamp)
    ensures FloodOf(nodes', net', m) == FloodOf(nodes, net, m)
  {
    var a, b := CountersOf(nodes, m.stamp), CountersOf(nodes', m.stamp);
    assert a.Keys == b.Keys;
    assert forall p | p in a :: a[p] == b[p];
  }

  lemma CountersUpdate(nodes: map<Id, Node>, nodes': map<Id, Node>, stamp: Bytes, q: Id)
    requires nodes'.Keys == nodes.Keys && q in nodes && nodes'[q].log.Logged(stamp)
    requires forall p | p in nodes && p != q :: SameEntry(nodes[p].log, nodes'[p].log, stamp)
    ensures CountersOf(nodes', stamp) == CountersOf(nodes, stamp)[q := nodes'[q].log.entries[stamp].control]
  {
    var a, b := CountersOf(nodes, stamp)[q := nodes'[q].log.entries[stamp].control], CountersOf(nodes', stamp);
    forall p
      ensures p in a <==> p in b
      ensures p in a ==> a[p] == b[p]
    {
      if p in nodes && p != q {
        assert SameEntry(nodes[p].log, nodes'[p].log, stamp);
      }
    }
    assert a.Keys == b.Keys;
  }

  ghost predicate SameEntry(a: Log, b: Log, stamp: Bytes) {
    (a.Logged(stamp) <==> b.Logged(stamp)) && (a.Logged(stamp) ==> a.entries[stamp] == b.entries[stamp])
  }

  /** What arriving over e does to the traffic of a flooded message. */
  ghost predicate PassedOn(t: Traffic, u: Traffic, e: Edge, g: Graph, passes: bool) {
    && u.copies == t.copies - multiset{e} + (if passes then multiset(Fan(e.to, g.Succ(e.to))) else multiset{})
    && u.sent == t.sent + if passes then |g.Succ(e.to)| else 0
  }

  /** A broadcast that reaches a node with the graph's neighbours, over an edge
      of the graph, is one step of the flood. */
  lemma ArrivalIsDelivery(nodes: map<Id, Node>, net: Net, nodes': map<Id, Node>, net': Net, m: Msg, e: Edge,
                          g: Graph, riders: set<Id>)
    requires nodes'.Keys == nodes.Keys && e.to in nodes
    requires forall p | p in nodes && p != e.to :: SameEntry(nodes[p].log, nodes'[p].log, m.stamp)
    requires var log, log' := nodes[e.to].log, nodes'[e.to].log;
             && log'.Logged(m.stamp)
             && log'.entries[m.stamp].control
                == Credit(if log.Logged(m.stamp) then log.entries[m.stamp].control else Zeros(g.Pred(e.to)), e.from)
             && PassedOn(TrafficOf(net, m), TrafficOf(net', m), e, g, !log.Logged(m.stamp) && e.to !in riders)
    ensures FloodOf(nodes', net', m) == Deliver(g, riders, FloodOf(nodes, net, m), e)
  {
    CountersUpdate(nodes, nodes', m.stamp, e.to);
    assert e.to in CountersOf(nodes, m.stamp) <==> nodes[e.to].log.Logged(m.stamp);
    hide TrafficOf, Zeros, Credit, CountersOf, SameEntry, Fan;
  }

  lemma PostSingle(net: Net, p: Id, s: Sent)
    ensures PostAll(net, p, [s]) == PostOne(net, p, s)
  {
    assert [s][1..] == [];
  }

  lemma SelfSame(a: Log, stamp: Bytes)
    ensures SameEntry(a, a, stamp)
  {
  }

  lemma FloodCopies(nodes: map<Id, Node>, net: Net, m: Msg)
    ensures FloodOf(nodes, net, m).copies == TrafficOf(net, m).copies
    ensures FloodOf(nodes, net, m).sent == TrafficOf(net, m).sent
    ensures forall p :: p in FloodOf(nodes, net, m).counters <==> p in nodes && nodes[p].log.Logged(m.stamp)
  {
  }

  lemma TrafficIs(net: Net, m: Msg)
    requires m in net
    ensures TrafficOf(net, m) == net[m]
  {
  }

  lemma SameElsewhere(a: map<Id, Node>, b: map<Id, Node>, p: Id, stamp: Bytes)
    requires a.Keys == b.Keys && forall q | q in a && q != p :: a[q] == b[q]
    ensures forall q | q in a && q != p :: SameEntry(a[q].log, b[q].log, stamp)
  {
  }

  /** Only p changes, and neither its entry for m nor m's traffic does. */
  lemma FloodElsewhere(nodes: map<Id, Node>, net: Net, nodes': map<Id, Node>, net': Net, m: Msg, p: Id)
    requires nodes'.Keys == nodes.Keys && TrafficOf(net', m) == TrafficOf(net, m) && p in nodes
    requires forall q | q in nodes && q != p :: nodes'[q] == nodes[q]
    requires SameEntry(nodes[p].log, nodes'[p].log, m.stamp)
    ensures FloodOf(nodes', net', m) == FloodOf(nodes, net, m)
  {
    hide TrafficOf, FloodOf, SameEntry;
    SameElsewhere(nodes, nodes', p, m.stamp);
    FloodUntouched(nodes, net, nodes', net', m);
  }
}
