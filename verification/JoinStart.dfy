/** How a join begins, and what every join comes to. */
module JoinStarts {
  import opened Bytes
  import opened Rings
  import opened Groups
  import opened Messages
  import opened Logs
  import opened Nodes
  import opened Invariants
  import opened Floods
  import opened Systems
  import opened Joins
  import opened JoinWorlds

  /** The entry point has no group yet. */
  ghost predicate Alone(pl: Plan, n: Node)
    requires PlanOk(pl)
  {
    && pl.members == {pl.entry} && n.id == pl.entry && n.pubKey == pl.acks[pl.entry].pubKey
    && n.group.None? && n.peers == map[] && n.state != Connected && MarkerFree(pl.env, n, pl.groupId)
    && n.joinTimers == {} && !n.log.Logged(pl.notif.stamp) && !n.log.Logged(pl.readyNotif.stamp)
  }

  /** Alone, or in the old view and not told yet. */
  ghost predicate Untold(pl: Plan, n: Node, p: Id)
    requires PlanOk(pl) && p in pl.members
  {
    MemberOk(pl, n, p) && !Told(pl, n)
  }

  /** The entry point, free to answer, with a connection from the newcomer. */
  ghost predicate Hosting(pl: Plan, n: Node)
    requires PlanOk(pl)
  {
    && (Alone(pl, n) || Untold(pl, n, pl.entry)) && n.joinToken && NobodyKnown(n.newPeers)
    && pl.addresses[pl.newcomer] in n.newPeers
  }

  /** Before the join: the members agree on the old view, and the newcomer has
      called the entry point. */
  ghost predicate Before(pl: Plan, nodes: map<Id, Node>)
    requires PlanOk(pl)
  {
    && nodes.Keys == pl.Everyone()
    && (forall p | p in pl.members && p != pl.entry :: Untold(pl, nodes[p], p))
    && Hosting(pl, nodes[pl.entry])
    && var x := nodes[pl.newcomer];
       NewcomerOk(pl, x) && x.peers == map[] && x.state != Connected && pl.addresses[pl.entry] in x.newPeers
  }

  /** The newcomer's request. */
  function Request(pl: Plan, stamp: Bytes): Msg
    requires pl.notif.JoinNotif?
  {
    Join(stamp, pl.newcomer, pl.notif.pubKey, pl.notif.port)
  }

  predicate FreshRequest(pl: Plan, n: Node, stamp: Bytes) {
    !n.log.Logged(stamp) && stamp != pl.notif.stamp && stamp != pl.readyNotif.stamp
  }

  function AnswerStamps(pl: Plan): Stamps
    requires pl.entry in pl.acks
  {
    Stamps(pl.groupId, pl.notif.stamp, pl.acks[pl.entry].stamp)
  }

  /** The group the entry point answers from: its own, or one it founds. */
  function Grouped(pl: Plan, n: Node): Node {
    if n.state != Connected then Found(pl.env, n, pl.groupId) else n
  }

  /** The entry point once it knows who is calling. */
  function Heard(pl: Plan, n: Node, stamp: Bytes): Node
    requires pl.notif.JoinNotif? && pl.newcomer in pl.addresses && pl.addresses[pl.newcomer] in n.newPeers
  {
    var a := pl.addresses[pl.newcomer];
    var g := Grouped(pl, n);
    var caller := g.newPeers[a].(id := pl.newcomer, pubKey := pl.notif.pubKey, state := Joining);
    var named := g.(newPeers := g.newPeers[a := caller]);
    LogMessage(named, Request(pl, stamp), Some(pl.newcomer))
  }

  /** The node without the caller's connection, which moves on to the peers. */
  function WithoutCaller(pl: Plan, n: Node): Node
    requires pl.newcomer in pl.addresses
  {
    n.(newPeers := n.newPeers - {pl.addresses[pl.newcomer]})
  }

  lemma PlanIs(pl: Plan)
    requires PlanOk(pl)
    ensures pl.newcomer !in pl.members && pl.entry in pl.members && pl.acks.Keys == pl.members
    ensures pl.addresses.Keys == pl.Everyone() && pl.notif.JoinNotif?
    ensures pl.notif
            == JoinNotif(pl.notif.stamp, MakeMarker(pl.env.h, pl.groupId, pl.groupId), false, pl.groupId, pl.newcomer,
                         pl.notif.pubKey, pl.addresses[pl.newcomer], pl.notif.port)
    ensures pl.entry in pl.acks && pl.newcomer in pl.addresses && pl.newcomer in pl.Everyone()
  {
  }

  /** Founding a group makes the lone node a member like any other. */
  lemma AloneIsGrouped(pl: Plan, n: Node)
    requires PlanOk(pl) && Alone(pl, n) && NobodyKnown(n.newPeers)
    ensures Untold(pl, Grouped(pl, n), pl.entry)
  {
    hide PlanOk, MakeMarker, KeysDistinct, View.AddToRings, RingsHold, CacheExact;
    PlanIs(pl);
    AckIs(pl, pl.entry);
    FoundKeeps(pl.env, n, pl.groupId) by {
      MemberKeys(pl);
      assert Consistent(pl.env, n);
    }
    IdKept(pl.env.key, EmptyView(pl.groupId), pl.entry, pl.entry);
  }

  lemma GroupedIsUntold(pl: Plan, n: Node)
    requires PlanOk(pl) && Hosting(pl, n)
    ensures Untold(pl, Grouped(pl, n), pl.entry)
  {
    hide PlanOk, MemberOk, Alone, Grouped;
    PlanIs(pl);
    if Alone(pl, n) {
      AloneIsGrouped(pl, n);
    } else {
      AckIs(pl, pl.entry);
      MemberIs(pl, n, pl.entry);
      assert Grouped(pl, n) == n by { StaysGrouped(pl, n); }
    }
  }

  lemma StaysGrouped(pl: Plan, n: Node)
    requires n.state == Connected
    ensures Grouped(pl, n) == n
  {
  }

  lemma LogMatters(pl: Plan, n: Node, p: Id, log: Log, newPeers: map<Address, Pending>)
    requires PlanOk(pl) && p in pl.members && Untold(pl, n, p) && NobodyKnown(newPeers)
    requires SameEntry(n.log, log, pl.notif.stamp) && SameEntry(n.log, log, pl.readyNotif.stamp)
    ensures Untold(pl, n.(log := log, newPeers := newPeers), p)
  {
    hide PlanOk, Coherent, Serialize;
    AckIs(pl, p);
    LogKeepsCoherent(pl.env, n, log);
    CoherentWithout(pl.env, n.(log := log), newPeers);
  }

  /** Hearing the request leaves the entry point ready to answer it. */
  lemma HeardIs(pl: Plan, n: Node, stamp: Bytes)
    requires PlanOk(pl) && Hosting(pl, n) && FreshRequest(pl, n, stamp)
    requires pl.newcomer in pl.addresses && pl.entry in pl.members
    ensures var g := Heard(pl, n, stamp); var a := pl.addresses[pl.newcomer];
            && Untold(pl, WithoutCaller(pl, g), pl.entry) && g.joinToken && a in g.newPeers
            && g.newPeers[a].id == pl.newcomer && g.newPeers[a].pubKey == pl.notif.pubKey
            && g.newPeers[a].state == Joining
            && SameEntry(n.log, g.log, pl.notif.stamp)
  {
    hide PlanOk, Alone, MemberOk, Untold, Grouped, Serialize, LogMessage;
    PlanIs(pl);
    GroupedIsUntold(pl, n);
    GroupingKeeps(pl, n);
    var a, g, m := pl.addresses[pl.newcomer], Grouped(pl, n), Request(pl, stamp);
    var caller := g.newPeers[a].(id := pl.newcomer, pubKey := pl.notif.pubKey, state := Joining);
    var named := g.(newPeers := g.newPeers[a := caller]);
    LogEffect(named, m, Some(pl.newcomer));
    var heard := Heard(pl, n, stamp);
    assert SameEntry(n.log, heard.log, pl.notif.stamp) && SameEntry(n.log, heard.log, pl.readyNotif.stamp);
    var without := heard.newPeers - {a};
    LogMatters(pl, g, pl.entry, heard.log, without);
  }

  lemma GroupingKeeps(pl: Plan, n: Node)
    ensures var g := Grouped(pl, n);
            g.log == n.log && g.newPeers == n.newPeers && g.joinToken == n.joinToken && g.readyTimers == n.readyTimers
            && g.state == Connected
  {
  }

  /** Receiving the request comes down to answering it. */
  lemma RequestHeard(pl: Plan, n: Node, stamp: Bytes)
    requires PlanOk(pl) && Hosting(pl, n) && FreshRequest(pl, n, stamp)
    requires pl.newcomer in pl.addresses && pl.entry in pl.members && pl.notif.JoinNotif? && pl.entry in pl.acks
    ensures var a := pl.addresses[pl.newcomer];
            && CanReceive(pl.env, n, Unsorted(a), Request(pl, stamp), AnswerStamps(pl))
            && var g := Heard(pl, n, stamp);
               && HasOwnMarker(pl.env, g) && a in g.newPeers
               && Receive(pl.env, n, Unsorted(a), Request(pl, stamp), AnswerStamps(pl))
                  == AnswerJoin(pl.env, g, a, pl.notif.port, AnswerStamps(pl))
  {
    hide PlanOk, MemberOk, Serialize, LogMessage, AnswerJoin, Found, MakeMarker;
    HeardIs(pl, n, stamp);
    GroupingKeeps(pl, n);
    CanHear(pl, n);
    var a, m, st := pl.addresses[pl.newcomer], Request(pl, stamp), AnswerStamps(pl);
    var g := Heard(pl, n, stamp);
    AckIs(pl, pl.entry);
    assert HasOwnMarker(pl.env, g) by {
      MemberIs(pl, WithoutCaller(pl, g), pl.entry);
    }
    var o := AnswerJoin(pl.env, g, a, pl.notif.port, st);
    assert Process(pl.env, n, Unsorted(a), m, st) == o;
    assert Relay(n, Unsorted(a), m) == Outcome(n, []);
    assert [] + o.sends == o.sends;
  }

  lemma CanHear(pl: Plan, n: Node)
    requires PlanOk(pl) && Hosting(pl, n) && pl.entry in pl.members
    ensures if n.state == Connected then HasOwnMarker(pl.env, n) else MarkerFree(pl.env, n, pl.groupId)
  {
    hide PlanOk, MemberOk, MakeMarker;
    AckIs(pl, pl.entry);
    if !Alone(pl, n) {
      MemberIs(pl, n, pl.entry);
    }
  }

  /** The answer: the notification to the old successors, then our own
      acknowledgement. */
  lemma Answered(pl: Plan, g: Node)
    requires PlanOk(pl) && pl.newcomer in pl.addresses && pl.entry in pl.members && pl.entry in pl.acks
    requires Untold(pl, WithoutCaller(pl, g), pl.entry) && HasOwnMarker(pl.env, g)
        && pl.addresses[pl.newcomer] in g.newPeers
    requires var c := g.newPeers[pl.addresses[pl.newcomer]];
             c.id == pl.newcomer && c.pubKey == pl.notif.pubKey && c.state == Joining
    ensures var o := AnswerJoin(pl.env, g, pl.addresses[pl.newcomer], pl.notif.port, AnswerStamps(pl));
            && MemberOk(pl, o.node, pl.entry) && Told(pl, o.node) && !Done(pl, o.node)
            && o.node.log.entries[pl.notif.stamp].control == Zeros(pl.Graph().Pred(pl.entry))
            && pl.newcomer in o.node.readyTimers
            && o.sends == [Sent(pl.notif, pl.Graph().Succ(pl.entry)), Sent(pl.acks[pl.entry], {pl.newcomer})]
  {
    hide PlanOk, MemberOk, Serialize, LogMessage, AcknowledgeJoin, MakeMarker, Zeros, Graph.Succ, Graph.Pred,
      Plan.Graph;
    PlanIs(pl);
    AckIs(pl, pl.entry);
    var w := WithoutCaller(pl, g);
    MemberIs(pl, w, pl.entry);
    MemberNeighbours(pl, w, pl.entry);
    LogEffect(g.(joinToken := false), pl.notif, None);
    var log := LogMessage(g.(joinToken := false), pl.notif, None).log;
    NewcomerTaken(pl, w, pl.entry, log);
    var asked, ack := w.(log := log, joinToken := false), pl.acks[pl.entry].stamp;
    var acked := AcknowledgeJoin(pl.env, asked, pl.newcomer, Joining, ack).node;
    ReadyTimersIrrelevant(pl, acked, pl.entry, acked.readyTimers + {pl.newcomer});
  }

  // ------------------------------------------------------- the first world

  /** The world once the entry point has handled the request. */
  ghost function Answer(pl: Plan, nodes: map<Id, Node>, stamp: Bytes): World
    requires PlanOk(pl) && Before(pl, nodes) && FreshRequest(pl, nodes[pl.entry], stamp)
  {
    PlanIs(pl);
    RequestHeard(pl, nodes[pl.entry], stamp);
    var link := Unsorted(pl.addresses[pl.newcomer]);
    var o := Receive(pl.env, nodes[pl.entry], link, Request(pl, stamp), AnswerStamps(pl));
    World(nodes[pl.entry := o.node], PostAll(map[], pl.entry, o.sends))
  }

  /** What the answer leaves at the entry point and on the wire. */
  ghost predicate AnsweredWorld(pl: Plan, nodes: map<Id, Node>, w: World)
    requires PlanOk(pl) && pl.entry in nodes && pl.entry in pl.members
  {
    && w.nodes.Keys == nodes.Keys && (forall p | p in nodes && p != pl.entry :: w.nodes[p] == nodes[p])
    && var n := w.nodes[pl.entry];
       && MemberOk(pl, n, pl.entry) && Told(pl, n) && !Done(pl, n) && pl.newcomer in n.readyTimers
       && n.log.entries[pl.notif.stamp].control == Zeros(pl.Graph().Pred(pl.entry))
       && w.net == PostAll(map[], pl.entry,
                           [Sent(pl.notif, pl.Graph().Succ(pl.entry)), Sent(pl.acks[pl.entry], {pl.newcomer})])
  }

  lemma AnswerIs(pl: Plan, nodes: map<Id, Node>, stamp: Bytes)
    requires PlanOk(pl) && Before(pl, nodes) && FreshRequest(pl, nodes[pl.entry], stamp)
    ensures pl.entry in pl.members && AnsweredWorld(pl, nodes, Answer(pl, nodes, stamp))
  {
    hide PlanOk, MemberOk, Alone, Untold, Receive, CanReceive, AnswerJoin, PostAll, Heard, Told, Done, Zeros,
      Graph.Succ,
      Graph.Pred, Plan.Graph, Request, AnswerStamps, FreshRequest, HasOwnMarker, SameEntry, NewcomerOk;
    PlanIs(pl);
    var n := nodes[pl.entry];
    RequestHeard(pl, n, stamp);
    HeardIs(pl, n, stamp);
    Answered(pl, Heard(pl, n, stamp));
  }

  lemma UntoldIs(pl: Plan, n: Node, p: Id)
    requires PlanOk(pl) && p in pl.members && Untold(pl, n, p)
    ensures p in pl.acks && pl.acks[p].JoinAck? && MemberOk(pl, n, p) && !Told(pl, n) && !Done(pl, n)
  {
    AckIs(pl, p);
    UntoldUndone(pl, n, p);
  }

  lemma StartNodes(pl: Plan, nodes: map<Id, Node>, w: World)
    requires PlanOk(pl) && pl.entry in pl.members && Before(pl, nodes) && AnsweredWorld(pl, nodes, w)
    ensures NodesOk(pl, w.nodes) && ProgressOf(pl, w.nodes) == Progress({pl.entry}, {}, {}, true, false)
  {
    hide PlanOk, MemberOk, Hosting, Told, Done, Zeros, PostAll, Plan.Graph, NewcomerOk, Untold;
    PlanIs(pl);
    forall p | p in pl.members
      ensures p in pl.acks && pl.acks[p].JoinAck? && MemberOk(pl, w.nodes[p], p)
      ensures !Done(pl, w.nodes[p]) && (Told(pl, w.nodes[p]) <==> p == pl.entry)
    {
      AckIs(pl, p);
      if p != pl.entry {
        UntoldIs(pl, nodes[p], p);
      }
    }
  }

  lemma StartWire(pl: Plan, net: Net)
    requires PlanOk(pl) && pl.entry in pl.members && pl.entry in pl.acks
    requires net == PostAll(map[], pl.entry,
                            [Sent(pl.notif, pl.Graph().Succ(pl.entry)), Sent(pl.acks[pl.entry], {pl.newcomer})])
    ensures WireOk(pl, Progress({pl.entry}, {}, {}, true, false), net)
    ensures var s := pl.Graph().Succ(pl.entry); TrafficOf(net, pl.notif) == Traffic(multiset(Fan(pl.entry, s)), |s|)
  {
    hide PlanOk, PostAll, PostOne, TrafficOf, Fan, Graph.Succ, Nearest, Plan.Graph, Planned;
    MessagesDiffer(pl);
    AckIs(pl, pl.entry);
    var p, s := pl.entry, pl.Graph().Succ(pl.entry);
    PostTwo(map[], p, Sent(pl.notif, s), Sent(pl.acks[p], {pl.newcomer}));
    var a := PostOne(map[], p, Sent(pl.notif, s));
    PostIs(map[], p, pl.notif, s);
    PostIs(a, p, pl.acks[p], {pl.newcomer});
    OneFan(p, pl.newcomer);
    NothingSent(pl.notif);
    NothingSent(pl.acks[p]);
    assert multiset{} + multiset(Fan(p, s)) == multiset(Fan(p, s));
    assert multiset{} + multiset{Edge(p, pl.newcomer)} == multiset{Edge(p, pl.newcomer)};
    var pr0 := Progress({}, {}, {}, true, false);
    NothingSentIsOk(pl, pr0);
    WireMoves(pl, pr0, Progress({p}, {}, {}, true, false), map[], net, {pl.notif, pl.acks[p]});
  }

  lemma NothingSent(m: Msg)
    ensures TrafficOf(map[], m) == Traffic(multiset{}, 0)
  {
  }

  lemma NothingSentIsOk(pl: Plan, pr: Progress)
    requires pr == Progress({}, {}, {}, true, false)
    ensures WireOk(pl, pr, map[])
  {
  }

  lemma StartFlood(pl: Plan, nodes: map<Id, Node>, w: World)
    requires PlanOk(pl) && pl.entry in pl.members && Before(pl, nodes) && AnsweredWorld(pl, nodes, w)
    requires var s := pl.Graph().Succ(pl.entry); TrafficOf(w.net, pl.notif) == Traffic(multiset(Fan(pl.entry, s)), |s|)
    ensures FloodOf(w.nodes, w.net, pl.notif) == Start(pl.Graph(), {}, pl.entry) && NoticeOk(pl, w)
  {
    hide PlanOk, MemberOk, Hosting, Done, Zeros, PostAll, Plan.Graph, NewcomerOk, Untold, Fan, TrafficOf, FloodInv,
      Graph.Succ, Graph.Pred;
    GraphIs(pl);
    PlanIs(pl);
    var o := pl.entry;
    forall p | p in w.nodes && p != o
      ensures !w.nodes[p].log.Logged(pl.notif.stamp)
    {
      NobodyElseTold(pl, nodes, p);
    }
    var counters := CountersOf(w.nodes, pl.notif.stamp);
    assert counters.Keys == {o};
    assert counters == map[o := Zeros(pl.Graph().Pred(o))];
    var s := pl.Graph().Succ(o);
    assert multiset{} + multiset(Fan(o, s)) == multiset(Fan(o, s));
    StartInv(pl.Graph(), {}, o);
  }

  lemma NobodyElseTold(pl: Plan, nodes: map<Id, Node>, p: Id)
    requires PlanOk(pl) && Before(pl, nodes) && p in nodes && p != pl.entry
    ensures !nodes[p].log.Logged(pl.notif.stamp)
  {
    hide PlanOk, Hosting, MemberOk;
    PlanIs(pl);
    if p in pl.members {
      UntoldIs(pl, nodes[p], p);
    }
  }

  /** A world the answer leaves is the first of a join. */
  lemma AnsweredStarts(pl: Plan, nodes: map<Id, Node>, w: World)
    requires PlanOk(pl) && pl.entry in pl.members && Before(pl, nodes) && AnsweredWorld(pl, nodes, w)
    ensures JoinInv(pl, w) && ProgressOf(pl, w.nodes) == Progress({pl.entry}, {}, {}, true, false)
    ensures FloodOf(w.nodes, w.net, pl.notif) == Start(pl.Graph(), {}, pl.entry)
  {
    hide PlanOk, Before, NodesOk, ProgressOf, WireOk, NoticeOk, Start, FloodOf, Nearest, MemberOk, Told, Done, Zeros,
      Plan.Graph, Graph.Succ, Graph.Pred, TrafficOf, PostAll, Fan;
    PlanIs(pl);
    StartNodes(pl, nodes, w);
    StartWire(pl, w.net);
    StartFlood(pl, nodes, w);
  }

  /** However the entry point gets to answer, from its group or from one it has
      to found, the join starts as it should. */
  lemma AnswerStarts(pl: Plan, nodes: map<Id, Node>, stamp: Bytes)
    requires PlanOk(pl) && Before(pl, nodes) && FreshRequest(pl, nodes[pl.entry], stamp)
    ensures var w := Answer(pl, nodes, stamp);
            && JoinInv(pl, w) && ProgressOf(pl, w.nodes) == Progress({pl.entry}, {}, {}, true, false)
            && FloodOf(w.nodes, w.net, pl.notif) == Start(pl.Graph(), {}, pl.entry)
  {
    hide PlanOk, Before, JoinInv, ProgressOf, Answer, Start, FloodOf, AnsweredWorld;
    AnswerIs(pl, nodes, stamp);
    AnsweredStarts(pl, nodes, Answer(pl, nodes, stamp));
  }

  // ---------------------------------------------------------- the theorem

  lemma StartMeasure(g: Graph, o: Id)
    requires GraphOk(g) && o in g.nodes
    ensures Measure(g, Start(g, {}, o)) <= (RINGS_NB + 1) * |g.nodes| - 1
  {
    var f := Start(g, {}, o);
    FanCounts(o, g.Succ(o));
    assert f.copies == multiset(Fan(o, g.Succ(o)));
    assert |f.copies| == |Fan(o, g.Succ(o))| <= RINGS_NB;
    assert f.counters.Keys == {o};
    assert g.nodes == (g.nodes - {o}) + {o};
  }

  lemma StartLeft(pl: Plan)
    ensures Left(pl, Progress({pl.entry}, {}, {}, true, false)) == 3 + |pl.members|
  {
    assert {pl.entry} - {} == {pl.entry};
    assert pl.members - {} == pl.members;
  }

  lemma StartIsShort(pl: Plan, w: World)
    requires JoinInv(pl, w) && pl.entry in pl.members && w.nodes.Keys == pl.Everyone()
    requires ProgressOf(pl, w.nodes) == Progress({pl.entry}, {}, {}, true, false)
    requires FloodOf(w.nodes, w.net, pl.notif) == Start(pl.Graph(), {}, pl.entry)
    ensures Remaining(pl, w) <= 13 * |pl.members| + 1
  {
    hide PlanOk, JoinInv, ProgressOf, FloodOf, Plan.Graph, Start, Measure, Left;
    Parts(pl, w);
    GraphIs(pl);
    StartMeasure(pl.Graph(), pl.entry);
    StartLeft(pl);
  }

  /** Every join, from the entry point's answer on: it can always go on until
      nothing is left to do, which comes soon; then everyone holds the same view
      with the newcomer in it; and every member came to rely on the newcomer
      exactly once, by READY_NOTIF if they are neighbours and by its timer if
      they are not. */
  lemma JoinConverges(pl: Plan, nodes: map<Id, Node>, stamp: Bytes, steps: seq<Step>, end: World)
    requires PlanOk(pl) && Before(pl, nodes) && FreshRequest(pl, nodes[pl.entry], stamp) && pl.acks.Keys == pl.members
    requires JoinWorlds.Runs(pl, Answer(pl, nodes, stamp), steps, end)
    ensures forall step | Enabled(pl, end, step) :: CanStep(pl, end, step)
    ensures |steps| <= 13 * |pl.members| + 1
    ensures Quiescent(pl, end) ==>
      && Converged(pl, end)
      && forall p | p in pl.members ::
        if p in Nearest(pl) then Notices(pl, steps, p) == 1 && Timers(steps, p) == 0
        else Timers(steps, p) == 1 && Notices(pl, steps, p) == 0
  {
    hide PlanOk, Before, Answer, JoinWorlds.Runs, JoinInv, Enabled, CanStep, Converged, Quiescent, ProgressOf,
      FloodOf, Start, Nearest,
      Remaining;
    var w := Answer(pl, nodes, stamp);
    AnswerStarts(pl, nodes, stamp);
    Parts(pl, w);
    PlanIs(pl);
    StartIsShort(pl, w);
    JoinWorlds.RunKeeps(pl, w, steps, end);
    forall step | Enabled(pl, end, step)
      ensures CanStep(pl, end, step)
    {
      EnabledAdvances(pl, end, step);
    }
    if Quiescent(pl, end) {
      QuiescentIsConverged(pl, end);
      QuiescentProgress(pl, end);
      forall p | p in pl.members
        ensures if p in Nearest(pl) then Notices(pl, steps, p) == 1 && Timers(steps, p) == 0
                else Timers(steps, p) == 1 && Notices(pl, steps, p) == 0
      {
        RunCompletes(pl, w, steps, end, p);
        ToldIs(pl, w.nodes, p);
        ToldIs(pl, end.nodes, p);
      }
    }
  }
}
