/** Flooding one message over a fixed graph: the first copy is logged, credited
    and passed on to every successor, later ones are only credited. Some nodes
    may receive and never forward. */
module Floods {
  import opened Rings
  import opened Groups
  import opened Logs

  datatype Edge = Edge(from: Id, to: Id)

  datatype Graph = Graph(nodes: set<Id>, edges: set<Edge>)
  {
    function Succ(p: Id): set<Id> { set q | q in nodes && Edge(p, q) in edges }
    function Pred(p: Id): set<Id> { set q | q in nodes && Edge(q, p) in edges }
  }

  /** Edges join nodes, and nobody has more successors than there are rings. */
  ghost predicate GraphOk(g: Graph) {
    && (forall e | e in g.edges :: e.from in g.nodes && e.to in g.nodes)
    && (forall p | p in g.nodes :: |g.Succ(p)| <= RINGS_NB)
  }

  /** The graph the five rings of a member set make. */
  ghost function RingGraph(key: RingKeys, members: set<Id>): Graph {
    Graph(members, set p, q | p in members && q in members && q in Succs(key, members, p) :: Edge(p, q))
  }

  /** Its edges are what the members cache as successors and predecessors. */
  lemma RingGraphEdges(key: RingKeys, members: set<Id>, p: Id)
    requires p in members
    ensures RingGraph(key, members).Succ(p) == Succs(key, members, p)
    ensures RingGraph(key, members).Pred(p) == Preds(key, members, p)
  {
    hide IsNext;
    forall q | q in members
      ensures p in Succs(key, members, q) <==> q in Preds(key, members, p)
    {
      NeighboursAreMutual(key, members, q, p);
    }
    assert forall q | q in Preds(key, members, p) :: q in members;
    assert forall q | q in Succs(key, members, p) :: q in members;
  }

  lemma RingGraphOk(key: RingKeys, members: set<Id>)
    requires KeysDistinct(key, members)
    ensures GraphOk(RingGraph(key, members))
  {
    hide KeysDistinct, Succs, Preds;
    forall p | p in members
      ensures |RingGraph(key, members).Succ(p)| <= RINGS_NB
    {
      RingGraphEdges(key, members, p);
      AtMostFive(key, members, p);
    }
  }

  /** Who has logged the message, with its counters; the copies in flight; and
      how many were ever sent. */
  datatype Flood = Flood(counters: map<Id, Control>, copies: multiset<Edge>, sent: nat)

  function Fan(p: Id, tos: set<Id>): set<Edge> {
    set q | q in tos :: Edge(p, q)
  }

  /** p writes one copy to each of these peers, unless it is a freerider. */
  function Post(f: Flood, riders: set<Id>, p: Id, tos: set<Id>): Flood {
    if p in riders then f else f.(copies := f.copies + multiset(Fan(p, tos)), sent := f.sent + |tos|)
  }

  /** The origin logs the message, expecting it back from all its predecessors. */
  function Start(g: Graph, riders: set<Id>, o: Id): Flood {
    Post(Flood(map[o := Zeros(g.Pred(o))], multiset{}, 0), riders, o, g.Succ(o))
  }

  /** One copy arrives. */
  function Deliver(g: Graph, riders: set<Id>, f: Flood, e: Edge): Flood {
    var rest := f.(copies := f.copies - multiset{e});
    if e.to in f.counters then
      rest.(counters := f.counters[e.to := Credit(f.counters[e.to], e.from)])
    else
      Post(rest.(counters := f.counters[e.to := Credit(Zeros(g.Pred(e.to)), e.from)]), riders, e.to, g.Succ(e.to))
  }

  // ------------------------------------------------------- the invariant

  function Got(f: Flood, p: Id, q: Id): nat {
    if p in f.counters && q in f.counters[p] then f.counters[p][q] else 0
  }

  predicate Forwarded(f: Flood, riders: set<Id>, q: Id) {
    q in f.counters && q !in riders
  }

  /** Copies travel along edges; counters count exactly the predecessors. */
  ghost predicate Shaped(g: Graph, f: Flood) {
    && f.counters.Keys <= g.nodes
    && (forall e | e in f.copies :: e in g.edges)
    && (forall p | p in f.counters :: f.counters[p].Keys == g.Pred(p))
  }

  /** On every edge, a node that has forwarded accounts for exactly one copy, in
      flight or counted at the other end; one that has not, for none. */
  ghost predicate Accounted(g: Graph, riders: set<Id>, f: Flood) {
    forall e | e in g.edges ::
      f.copies[e] + Got(f, e.to, e.from) == if Forwarded(f, riders, e.from) then 1 else 0
  }

  /** A path from o whose nodes, the last excepted, forward. */
  ghost predicate IsPath(g: Graph, riders: set<Id>, o: Id, p: Id, path: seq<Id>) {
    && path != [] && path[0] == o && path[|path| - 1] == p
    && forall k | 0 <= k < |path| - 1 ::
      path[k] !in riders && Edge(path[k], path[k + 1]) in g.edges
  }

  ghost predicate Reachable(g: Graph, riders: set<Id>, o: Id, p: Id) {
    exists path :: IsPath(g, riders, o, p, path)
  }

  ghost function DegreeSum(g: Graph, ids: set<Id>): nat {
    if ids == {} then 0 else var p :| p in ids; |g.Succ(p)| + DegreeSum(g, ids - {p})
  }

  ghost predicate FloodInv(g: Graph, riders: set<Id>, o: Id, f: Flood) {
    && Shaped(g, f) && Accounted(g, riders, f)
    && o in f.counters && (forall p | p in f.counters :: Reachable(g, riders, o, p))
    && f.sent == DegreeSum(g, f.counters.Keys - riders)
  }

  lemma FanCounts(p: Id, tos: set<Id>)
    ensures |Fan(p, tos)| == |tos|
    ensures forall e :: multiset(Fan(p, tos))[e] == if e.from == p && e.to in tos then 1 else 0
    decreases tos
  {
    if tos != {} {
      var q :| q in tos;
      FanCounts(p, tos - {q});
      assert Fan(p, tos) == Fan(p, tos - {q}) + {Edge(p, q)};
    }
  }

  lemma {:induction false} DegreePick(g: Graph, ids: set<Id>, p: Id)
    requires p in ids
    ensures DegreeSum(g, ids) == |g.Succ(p)| + DegreeSum(g, ids - {p})
    decreases ids
  {
    var q :| q in ids && DegreeSum(g, ids) == |g.Succ(q)| + DegreeSum(g, ids - {q});
    if q != p {
      DegreePick(g, ids - {q}, p);
      DegreePick(g, ids - {p}, q);
      assert ids - {q} - {p} == ids - {p} - {q};
    }
  }

  lemma {:induction false} DegreeBound(g: Graph, ids: set<Id>)
    requires GraphOk(g) && ids <= g.nodes
    ensures DegreeSum(g, ids) <= RINGS_NB * |ids|
    decreases ids
  {
    if ids != {} {
      var p :| p in ids;
      DegreePick(g, ids, p);
      DegreeBound(g, ids - {p});
    }
  }

  lemma StartInv(g: Graph, riders: set<Id>, o: Id)
    requires GraphOk(g) && o in g.nodes
    ensures FloodInv(g, riders, o, Start(g, riders, o))
  {
    var f := Start(g, riders, o);
    FanCounts(o, g.Succ(o));
    assert IsPath(g, riders, o, o, [o]);
    if o in riders {
      assert f.counters.Keys - riders == {};
    } else {
      assert f.counters.Keys - riders == {o};
      DegreePick(g, {o}, o);
      assert {o} - {o} == {};
    }
  }

  /** Delivering e passes the message on. */
  predicate PassesOn(f: Flood, riders: set<Id>, e: Edge) {
    e.to !in f.counters && e.to !in riders
  }

  lemma CopiesAfter(g: Graph, riders: set<Id>, f: Flood, e: Edge, b: Edge)
    requires GraphOk(g) && e in f.copies
    ensures Deliver(g, riders, f, e).copies[b]
            == f.copies[b] - (if b == e then 1 else 0)
               + if PassesOn(f, riders, e) && b.from == e.to && b in g.edges then 1 else 0
  {
    FanCounts(e.to, g.Succ(e.to));
    assert b.from == e.to && b.to in g.Succ(e.to) <==> b.from == e.to && b in g.edges;
  }

  lemma GotAfter(g: Graph, riders: set<Id>, f: Flood, e: Edge, b: Edge)
    requires Shaped(g, f) && e in g.edges && b in g.edges && GraphOk(g)
    ensures var d := Deliver(g, riders, f, e);
            && Got(d, b.to, b.from) == Got(f, b.to, b.from) + (if b == e then 1 else 0)
            && (Forwarded(d, riders, b.from) <==>
                Forwarded(f, riders, b.from) || (PassesOn(f, riders, e) && b.from == e.to))
  {
    assert b.from in g.Pred(b.to) && e.from in g.Pred(e.to);
  }

  lemma DeliverShaped(g: Graph, riders: set<Id>, f: Flood, e: Edge)
    requires GraphOk(g) && Shaped(g, f) && e in f.copies
    ensures Shaped(g, Deliver(g, riders, f, e))
  {
    hide Deliver, GraphOk, Graph.Pred;
    var d := Deliver(g, riders, f, e);
    CountersAfter(g, riders, f, e);
    assert e.from in g.Pred(e.to) && e.to in g.nodes by { EdgeEnds(g, e); }
    forall b | b in d.copies
      ensures b in g.edges
    {
      CopiesAfter(g, riders, f, e, b);
    }
  }

  lemma EdgeEnds(g: Graph, e: Edge)
    requires GraphOk(g) && e in g.edges
    ensures e.to in g.nodes && e.from in g.nodes && e.from in g.Pred(e.to)
  {
  }

  lemma DeliverAccounted(g: Graph, riders: set<Id>, f: Flood, e: Edge)
    requires GraphOk(g) && Shaped(g, f) && Accounted(g, riders, f) && e in f.copies
    ensures Accounted(g, riders, Deliver(g, riders, f, e))
  {
    hide Deliver, Got, GraphOk;
    var d := Deliver(g, riders, f, e);
    forall b | b in g.edges
      ensures d.copies[b] + Got(d, b.to, b.from) == if Forwarded(d, riders, b.from) then 1 else 0
    {
      assert f.copies[b] + Got(f, b.to, b.from) == if Forwarded(f, riders, b.from) then 1 else 0;
      CopiesAfter(g, riders, f, e, b);
      GotAfter(g, riders, f, e, b);
    }
  }

  /** A copy in flight was forwarded, and will be its first on this edge. */
  lemma EdgeAccount(g: Graph, riders: set<Id>, f: Flood, e: Edge)
    requires Accounted(g, riders, f) && e in g.edges
    ensures f.copies[e] + Got(f, e.to, e.from) == if Forwarded(f, riders, e.from) then 1 else 0
  {
  }

  lemma OneFurther(g: Graph, riders: set<Id>, o: Id, e: Edge)
    requires Reachable(g, riders, o, e.from) && e.from !in riders && e in g.edges
    ensures Reachable(g, riders, o, e.to)
  {
    var path :| IsPath(g, riders, o, e.from, path);
    assert IsPath(g, riders, o, e.to, path + [e.to]);
  }

  lemma DeliverReached(g: Graph, riders: set<Id>, o: Id, f: Flood, e: Edge)
    requires GraphOk(g) && FloodInv(g, riders, o, f) && e in f.copies
    ensures Reachable(g, riders, o, e.to)
  {
    hide GraphOk, Accounted, Reachable, Got;
    assert e in g.edges;
    EdgeAccount(g, riders, f, e);
    OneFurther(g, riders, o, e);
  }

  lemma DeliverSent(g: Graph, riders: set<Id>, f: Flood, e: Edge)
    requires f.sent == DegreeSum(g, f.counters.Keys - riders)
    ensures var d := Deliver(g, riders, f, e); d.sent == DegreeSum(g, d.counters.Keys - riders)
  {
    var d := Deliver(g, riders, f, e);
    if PassesOn(f, riders, e) {
      assert d.counters.Keys - riders == (f.counters.Keys - riders) + {e.to};
      DegreePick(g, d.counters.Keys - riders, e.to);
      assert d.counters.Keys - riders - {e.to} == f.counters.Keys - riders;
    } else {
      assert d.counters.Keys - riders == f.counters.Keys - riders;
    }
  }

  lemma CountersAfter(g: Graph, riders: set<Id>, f: Flood, e: Edge)
    ensures Deliver(g, riders, f, e).counters.Keys == f.counters.Keys + {e.to}
    ensures forall p | p in f.counters && p != e.to :: Deliver(g, riders, f, e).counters[p] == f.counters[p]
    ensures Deliver(g, riders, f, e).counters[e.to]
            == Credit(if e.to in f.counters then f.counters[e.to] else Zeros(g.Pred(e.to)), e.from)
  {
    hide Credit, Zeros;
  }

  /** Each delivery keeps the invariant. */
  lemma DeliverInv(g: Graph, riders: set<Id>, o: Id, f: Flood, e: Edge)
    requires GraphOk(g) && FloodInv(g, riders, o, f) && e in f.copies
    ensures FloodInv(g, riders, o, Deliver(g, riders, f, e))
  {
    hide Reachable, Accounted, Shaped, Deliver, GraphOk;
    DeliverShaped(g, riders, f, e);
    DeliverAccounted(g, riders, f, e);
    DeliverReached(g, riders, o, f, e);
    DeliverSent(g, riders, f, e);
    CountersAfter(g, riders, f, e);
  }

  // ---------------------------------------------------------- termination

  /** What each delivery lowers: six for a node yet to log, one for a copy. */
  ghost function Measure(g: Graph, f: Flood): nat {
    (RINGS_NB + 1) * |g.nodes - f.counters.Keys| + |f.copies|
  }

  lemma CopyIsEdge(g: Graph, f: Flood, e: Edge)
    requires GraphOk(g) && Shaped(g, f) && e in f.copies
    ensures e in g.edges && e.from in g.nodes && e.to in g.nodes
  {
  }

  lemma DeliverLowers(g: Graph, riders: set<Id>, f: Flood, e: Edge)
    requires GraphOk(g) && Shaped(g, f) && e in f.copies
    ensures Measure(g, Deliver(g, riders, f, e)) < Measure(g, f)
  {
    hide Deliver, Shaped, Graph.Succ;
    var d := Deliver(g, riders, f, e);
    CopyIsEdge(g, f, e);
    CountersAfter(g, riders, f, e);
    CopiesCount(g, riders, f, e);
    if e.to in f.counters {
      assert g.nodes - d.counters.Keys == g.nodes - f.counters.Keys;
    } else {
      assert g.nodes - f.counters.Keys == (g.nodes - d.counters.Keys) + {e.to};
    }
  }

  lemma CopiesCount(g: Graph, riders: set<Id>, f: Flood, e: Edge)
    requires e in f.copies
    ensures |Deliver(g, riders, f, e).copies| == |f.copies| - 1 + if PassesOn(f, riders, e) then |g.Succ(e.to)| else 0
  {
    FanCounts(e.to, g.Succ(e.to));
    assert |multiset(Fan(e.to, g.Succ(e.to)))| == |Fan(e.to, g.Succ(e.to))|;
  }

  // ----------------------------------------------------------- whole runs

  /** Delivering these copies, in this order, leads from f to end. */
  ghost predicate Runs(g: Graph, riders: set<Id>, f: Flood, es: seq<Edge>, end: Flood)
    decreases |es|
  {
    if es == [] then end == f
    else es[0] in f.copies && Runs(g, riders, Deliver(g, riders, f, es[0]), es[1..], end)
  }

  /** Every run keeps the invariant and is short. */
  lemma {:induction false} RunInv(g: Graph, riders: set<Id>, o: Id, f: Flood, es: seq<Edge>, end: Flood)
    requires GraphOk(g) && FloodInv(g, riders, o, f) && Runs(g, riders, f, es, end)
    ensures FloodInv(g, riders, o, end)
    ensures |es| + Measure(g, end) <= Measure(g, f)
    decreases |es|
  {
    hide FloodInv, Measure;
    if es != [] {
      assert Shaped(g, f) by { InvShaped(g, riders, o, f); }
      DeliverInv(g, riders, o, f, es[0]);
      DeliverLowers(g, riders, f, es[0]);
      RunInv(g, riders, o, Deliver(g, riders, f, es[0]), es[1..], end);
    }
  }

  lemma InvShaped(g: Graph, riders: set<Id>, o: Id, f: Flood)
    requires GraphOk(g) && FloodInv(g, riders, o, f)
    ensures Shaped(g, f)
  {
  }

  /** What a flood with nothing in flight has done. */
  ghost predicate Complete(g: Graph, riders: set<Id>, o: Id, f: Flood) {
    // exactly those reachable through forwarding nodes have the message
    && (forall p | p in g.nodes :: p in f.counters <==> Reachable(g, riders, o, p))
    // and each counts one for a predecessor that forwarded it, zero for others
    && (forall p | p in f.counters :: f.counters[p].Keys == g.Pred(p))
    && (forall p, q | p in f.counters && q in g.Pred(p) && q in f.counters[p] ::
      f.counters[p][q] == if Reachable(g, riders, o, q) && q !in riders then 1 else 0)
    // for one copy an edge leaving a forwarding node
    && f.sent == DegreeSum(g, f.counters.Keys - riders) && f.sent <= RINGS_NB * |g.nodes|
  }

  lemma {:induction false} PathIsLogged(g: Graph, riders: set<Id>, o: Id, f: Flood, p: Id, path: seq<Id>)
    requires FloodInv(g, riders, o, f) && f.copies == multiset{}
    requires IsPath(g, riders, o, p, path)
    ensures p in f.counters
    decreases |path|
  {
    hide Accounted, Reachable;
    if |path| > 1 {
      var q, front := path[|path| - 2], path[..|path| - 1];
      PathIsLogged(g, riders, o, f, q, front);
      assert Edge(path[|path| - 2], path[|path| - 2 + 1]) in g.edges;
      EdgeAccount(g, riders, f, Edge(q, p));
    }
  }

  lemma LoggedIsReached(g: Graph, riders: set<Id>, o: Id, f: Flood, p: Id)
    requires FloodInv(g, riders, o, f) && f.copies == multiset{}
    ensures p in f.counters <==> Reachable(g, riders, o, p)
  {
    hide Accounted, Shaped, IsPath;
    if Reachable(g, riders, o, p) {
      var path :| IsPath(g, riders, o, p, path);
      PathIsLogged(g, riders, o, f, p, path);
    }
  }

  lemma CounterSays(g: Graph, riders: set<Id>, o: Id, f: Flood, p: Id, q: Id)
    requires FloodInv(g, riders, o, f) && f.copies == multiset{} && p in f.counters && q in g.Pred(p)
    ensures q in f.counters[p] && f.counters[p][q] == if Reachable(g, riders, o, q) && q !in riders then 1 else 0
  {
    hide Accounted, Reachable;
    EdgeAccount(g, riders, f, Edge(q, p));
    LoggedIsReached(g, riders, o, f, q);
  }

  /** Freerider exactness, and the cost. */
  lemma QuiescentIsComplete(g: Graph, riders: set<Id>, o: Id, f: Flood)
    requires GraphOk(g) && FloodInv(g, riders, o, f) && f.copies == multiset{}
    ensures Complete(g, riders, o, f)
  {
    hide Reachable, Accounted, Graph.Pred;
    forall p
      ensures p in f.counters <==> Reachable(g, riders, o, p)
    {
      LoggedIsReached(g, riders, o, f, p);
    }
    forall p, q | p in f.counters && q in g.Pred(p)
      ensures f.counters[p][q] == if Reachable(g, riders, o, q) && q !in riders then 1 else 0
    {
      CounterSays(g, riders, o, f, p, q);
    }
    DegreeBound(g, f.counters.Keys - riders);
    SmallerCount(f.counters.Keys - riders, g.nodes);
  }

  lemma SmallerCount<T>(a: set<T>, b: set<T>)
    requires a <= b
    ensures |a| <= |b|
  {
    assert |b| == |a| + |b - a|;
  }

  /** Over the rings, with nobody riding free, everyone gets the message, and
      from each predecessor exactly once. */
  lemma RingFloodReachesAll(key: RingKeys, members: set<Id>, o: Id, f: Flood)
    requires KeysDistinct(key, members)
    requires FloodInv(RingGraph(key, members), {}, o, f) && f.copies == multiset{}
    ensures f.counters.Keys == members
    ensures forall p | p in members :: f.counters[p] == map q | q in Preds(key, members, p) :: 1
  {
    hide KeysDistinct, Succs, Preds, Reachable;
    var g := RingGraph(key, members);
    forall a, b | a in f.counters && b in Succs(key, members, a)
      ensures b in f.counters
    {
      RingGraphEdges(key, members, a);
      var e := Edge(a, b);
      assert e in g.edges;
      assert f.copies[e] + Got(f, e.to, e.from) == 1;
    }
    SuccessorsReachAll(key, members, f.counters.Keys, o);
    forall p | p in members
      ensures f.counters[p] == map q | q in Preds(key, members, p) :: 1
    {
      RingGraphEdges(key, members, p);
      forall q | q in Preds(key, members, p)
        ensures f.counters[p][q] == 1
      {
        var e := Edge(q, p);
        assert e in g.edges;
        assert f.copies[e] + Got(f, e.to, e.from) == 1;
      }
    }
  }
}
