/** Joins that overlap: the entry point answers whoever waits as soon as the
    last newcomer has taken its place and it relies on that one itself, however
    far behind the other members are. */
module Overlaps {
  import opened Bytes
  import opened Rings
  import opened Groups
  import opened Messages
  import opened Logs
  import opened Nodes
  import opened Invariants
  import opened Floods
  import opened Systems
  import opened Joins
  import opened JoinWorlds
  import opened JoinStarts
  import opened Arrears
  import Admissions
  import Lifecycles

  // ------------------------------------------------- the next join begins

  lemma CoherentAlike(env: Env, n: Node, like: Node)
    requires like == n.(peers := like.peers, newPeers := like.newPeers, joinToken := like.joinToken,
                        joinTimers := like.joinTimers)
    requires like.peers.Keys == n.peers.Keys && Coherent(env, n)
    ensures Coherent(env, like)
  {
    hide RingsHold, CacheExact, MakeMarker;
    assert (n.peers == map[]) ==> like.peers.Keys == {};
    assert OnRings(like) == OnRings(n);
  }

  /** Everybody has taken the newcomer in, and it has taken its place. */
  ghost predicate TookPlace(s: Stage) {
    s.plan.newcomer in s.world.nodes && s.world.nodes[s.plan.newcomer].state == Connected
  }

  lemma SeatedProgress(s: Stage)
    requires InOrder(s) && TookPlace(s)
    ensures s.plan.entry in s.plan.members && PaidWorld(s.plan, s.world).nodes.Keys == s.plan.Everyone()
    ensures var pr := ProgressOf(s.plan, PaidWorld(s.plan, s.world).nodes);
            pr.told == pr.acked == s.plan.members && !pr.armed && pr.seated
    ensures WireOk(s.plan, ProgressOf(s.plan, PaidWorld(s.plan, s.world).nodes), PaidWorld(s.plan, s.world).net)
  {
    hide PlanOk, MemberOk, NewcomerOk, ArrearsOk, NoStrays, StampsApart, EntryOk, WireOk, NoticeOk, NodesOk, Told,
      Done, PaidWorld, Nearest;
    StageParts(s);
    Parts(s.plan, PaidWorld(s.plan, s.world));
  }

  /** A member of the group as the next join finds it. */
  ghost predicate InGroup(pl: Plan, n: Node, p: Id) {
    && n.id == p && Coherent(pl.env, n) && n.state == Connected && n.group.Some? && n.group.value.id == pl.groupId
    && n.peers.Keys == pl.Everyone() - {p} && PeersKnown(n)
  }

  lemma MemberOfAll(s: Stage, p: Id)
    requires InOrder(s) && TookPlace(s) && p in s.plan.Everyone()
    ensures p in s.world.nodes && InGroup(s.plan, s.world.nodes[p], p)
    ensures p == s.plan.newcomer ==> NobodyKnown(s.world.nodes[p].newPeers)
  {
    hide InOrder, PlanOk, MemberOk, NewcomerOk, PaidWorld, NobodyKnown, Lagging, Paid, ProgressOf, WireOk, JoinInv,
      InGroup, Told, PeersKnown;
    StageParts(s);
    SeatedProgress(s);
    if p == s.plan.newcomer {
      NewcomerInGroup(s.plan, s.world.nodes[p]);
    } else {
      ToldIs(s.plan, PaidWorld(s.plan, s.world).nodes, p);
      MemberInGroup(s.plan, s.world.nodes[p], p);
    }
  }

  lemma NewcomerInGroup(pl: Plan, n: Node)
    requires PlanOk(pl) && NewcomerOk(pl, n) && n.state == Connected
    ensures InGroup(pl, n, pl.newcomer) && NobodyKnown(n.newPeers)
  {
    hide PlanOk, NewcomerOk, Coherent, NobodyKnown;
    NewcomerJoined(pl, n);
    NewcomerIs(pl, n);
    NewcomerGrouped(pl, n);
  }

  lemma MemberInGroup(pl: Plan, n: Node, p: Id)
    requires PlanOk(pl) && p in pl.members && p in pl.acks && pl.acks[p].JoinAck?
    requires MemberOk(pl, Paid(pl.newcomer, n), p) && Told(pl, Paid(pl.newcomer, n)) && PeersKnown(n)
    ensures InGroup(pl, n, p)
  {
    hide PlanOk, MemberOk, Coherent, Paid, PeersKnown, MakeMarker;
    MemberIs(pl, Paid(pl.newcomer, n), p);
    PaidIs(pl.newcomer, n);
    PaidAlike(pl.newcomer, n);
    CoherentAlike(pl.env, Paid(pl.newcomer, n), n);
  }

  lemma PaidAlike(x: Id, n: Node)
    ensures var like := Paid(x, n);
            n == like.(peers := n.peers, newPeers := n.newPeers, joinToken := n.joinToken, joinTimers := n.joinTimers)
    ensures Paid(x, n).peers.Keys == n.peers.Keys
  {
  }

  lemma NewcomerGrouped(pl: Plan, n: Node)
    requires Joined(pl, n, pl.newcomer)
    ensures n.state == Connected && n.group.Some? && n.group.value.id == pl.groupId
    ensures n.peers.Keys == pl.Everyone() - {pl.newcomer}
  {
    hide Coherent;
  }

  /** The earlier notices, with that of the newcomer that is seated now. */
  function NextPast(s: Stage): map<Id, Msg> {
    s.past[s.plan.newcomer := s.plan.readyNotif]
  }

  /** What a member owes once its newcomer is one among the earlier ones. */
  lemma DebtsPassOn(s: Stage, y: Id, p: Id)
    requires InOrder(s) && TookPlace(s) && p in s.plan.Everyone() && y !in s.plan.Everyone() && p in s.world.nodes
    ensures var x, n := s.plan.newcomer, s.world.nodes[p];
            && Lagging(y, NextPast(s), n)
            && Owed(y, n) == (if p == x then {} else Owed(x, n) + if Done(s.plan, n) then {} else {x})
            && (p != x && !Done(s.plan, n) ==> (x in n.joinTimers <==> p !in Nearest(s.plan)))
            && (p != x ==> (Done(s.plan, n) <==> p in ProgressOf(s.plan, PaidWorld(s.plan, s.world).nodes).done))
  {
    hide PlanOk, NewcomerOk, MemberOk, ArrearsOk, NoStrays, StampsApart, EntryOk, PaidWorld, Coherent, NobodyKnown,
      Nearest, Beside, ProgressOf, WireOk, Paid, JoinInv, Lagging, Owed, Done, PeersKnown, InOrder;
    StageParts(s);
    SeatedProgress(s);
    MemberOfAll(s, p);
    var pl, x, n, v := s.plan, s.plan.newcomer, s.world.nodes[p], PaidWorld(s.plan, s.world);
    assert y !in n.peers;
    if p == x {
      NewcomerHasNoDebts(pl, NextPast(s), n);
    } else {
      ToldIs(pl, v.nodes, p);
      PaidMember(pl, s.world, p);
      BesideIsMutual(pl, v.nodes[p], p);
      PaidIs(x, n);
      assert x !in s.past by { PastIsMembers(s); }
      MemberDebts(pl, s.past, n, p, y);
    }
  }

  /** The same for one member, at the node. */
  lemma MemberDebts(pl: Plan, past: map<Id, Msg>, n: Node, p: Id, y: Id)
    requires PlanOk(pl) && p in pl.members && p in pl.acks && pl.acks[p].JoinAck?
    requires MemberOk(pl, Paid(pl.newcomer, n), p) && Told(pl, n) && Lagging(pl.newcomer, past, n)
    requires pl.newcomer !in past && y !in n.peers
    ensures Lagging(y, past[pl.newcomer := pl.readyNotif], n) && pl.newcomer in n.peers
    ensures Owed(y, n) == Owed(pl.newcomer, n) + if Done(pl, n) then {} else {pl.newcomer}
    ensures !Done(pl, n) ==> (pl.newcomer in n.joinTimers <==> !Beside(Paid(pl.newcomer, n), pl.newcomer))
  {
    hide PlanOk, Coherent, Beside, Joins.Seated, Admissions.Underway;
    var x := pl.newcomer;
    PaidIs(x, n);
    ToldKnows(pl, Paid(x, n), p);
    assert Owed(y, n) == Owed(x, n) + if Done(pl, n) then {} else {x};
    forall z | z in n.joinTimers - {y}
      ensures z in Owed(y, n)
    {
      assert z != x ==> z in n.joinTimers - {x};
    }
  }

  lemma PastIsMembers(s: Stage)
    requires InOrder(s)
    ensures s.past.Keys <= s.plan.members && s.plan.newcomer !in s.past
  {
    hide JoinInv, NoStrays, EntryOk, StampsApart;
    StageParts(s);
  }

  lemma NewcomerHasNoDebts(pl: Plan, past: map<Id, Msg>, n: Node)
    requires pl.acks.Keys == pl.members && NewcomerOk(pl, n)
    ensures n.joinToken && n.joinTimers == {} && PeersKnown(n) && forall y :: Owed(y, n) == {} && Lagging(y, past, n)
  {
  }

  lemma ArrearsPassOn(s: Stage, y: Id)
    requires InOrder(s) && TookPlace(s) && y !in s.plan.Everyone() && s.world.nodes.Keys == s.plan.Everyone()
    ensures ArrearsOk(y, s.plan.Everyone(), NextPast(s), s.world)
  {
    hide InOrder, PlanOk, PaidWorld, Lagging, Nearest, ProgressOf, TrafficOf, Fan, Done, Planned, Expecting, Owed;
    PastIs(s);
    SeatedTraffic(s);
    NewestExpecting(s, y);
    forall p | p in s.plan.Everyone()
      ensures Lagging(y, NextPast(s), s.world.nodes[p])
    {
      DebtsPassOn(s, y, p);
    }
    forall z | z in s.past
      ensures Expecting(y, s.plan.Everyone(), s.world.nodes, z)
              == Expecting(s.plan.newcomer, s.plan.members, s.world.nodes, z)
    {
      OlderExpecting(s, y, z);
    }
  }

  /** The earlier notices, and this join's. */
  lemma PastIs(s: Stage)
    requires InOrder(s)
    ensures s.past.Keys <= s.plan.members && s.plan.newcomer !in s.past && s.plan.newcomer !in s.plan.members
    ensures s.plan.members <= s.world.nodes.Keys && s.plan.entry in s.plan.members && s.plan.readyNotif.ReadyNotif?
    ensures forall y | y in s.past ::
      && s.past[y].ReadyNotif? && s.past[y].stamp != s.plan.readyNotif.stamp
      && TrafficOf(s.world.net, s.past[y]).copies
         == multiset(Fan(y, Expecting(s.plan.newcomer, s.plan.members, s.world.nodes, y)))
    ensures forall y, z | y in s.past && z in s.past && y != z :: s.past[y].stamp != s.past[z].stamp
  {
    hide JoinInv, PlanOk, MemberOk, NewcomerOk, Lagging, PaidWorld, TrafficOf, Fan, Expecting, EntryOk, NoStrays,
      Planned;
    StageParts(s);
    MessagesDiffer(s.plan);
  }

  lemma OlderExpecting(s: Stage, y: Id, z: Id)
    requires InOrder(s) && TookPlace(s) && y !in s.plan.Everyone() && s.world.nodes.Keys == s.plan.Everyone()
    requires z in s.past && s.plan.newcomer !in s.plan.members && z != s.plan.newcomer
    ensures Expecting(y, s.plan.Everyone(), s.world.nodes, z)
            == Expecting(s.plan.newcomer, s.plan.members, s.world.nodes, z)
  {
    hide InOrder, PaidWorld, Lagging, Nearest, ProgressOf, Done, Owed;
    forall p | p in s.plan.Everyone()
      ensures z in Owed(y, s.world.nodes[p]) <==> p in s.plan.members && z in Owed(s.plan.newcomer, s.world.nodes[p])
    {
      DebtsPassOn(s, y, p);
    }
  }

  lemma NewestExpecting(s: Stage, y: Id)
    requires InOrder(s) && TookPlace(s) && y !in s.plan.Everyone() && s.world.nodes.Keys == s.plan.Everyone()
    requires s.plan.newcomer !in s.plan.members && s.plan.entry in s.plan.members
    requires PaidWorld(s.plan, s.world).nodes.Keys == s.plan.Everyone()
    ensures Expecting(y, s.plan.Everyone(), s.world.nodes, s.plan.newcomer)
            == Nearest(s.plan) - ProgressOf(s.plan, PaidWorld(s.plan, s.world).nodes).done
  {
    hide InOrder, PaidWorld, Lagging, Nearest, ProgressOf, Done;
    NearestAreMembers(s.plan);
    var x := s.plan.newcomer;
    forall p | p in s.plan.Everyone()
      ensures x in Owed(y, s.world.nodes[p]) && x !in s.world.nodes[p].joinTimers
              <==> p in Nearest(s.plan) - ProgressOf(s.plan, PaidWorld(s.plan, s.world).nodes).done
    {
      DebtsPassOn(s, y, p);
      assert x !in Owed(x, s.world.nodes[p]);
    }
  }

  /** With the newcomer seated, only its READY_NOTIF is in flight, and what was
      before. */
  lemma SeatedTraffic(s: Stage)
    requires InOrder(s) && TookPlace(s)
    ensures s.plan.entry in s.plan.members && PaidWorld(s.plan, s.world).nodes.Keys == s.plan.Everyone()
    ensures TrafficOf(s.world.net, s.plan.readyNotif).copies
            == multiset(Fan(s.plan.newcomer,
                            Nearest(s.plan) - ProgressOf(s.plan, PaidWorld(s.plan, s.world).nodes).done))
    ensures forall m :: TrafficOf(s.world.net, m).copies != multiset{} ==> m in NextPast(s).Values
  {
    hide PlanOk, MemberOk, NewcomerOk, EntryOk, PaidWorld, Nearest, JoinInv, ProgressOf, TrafficOf, Fan, StampsApart,
      Lagging, PeersKnown, NobodyKnown, Paid, Owed, Expecting;
    StageParts(s);
    SeatedProgress(s);
    var pl, w := s.plan, s.world;
    MessagesDiffer(pl);
    SameTraffic(pl, w, pl.readyNotif);
    assert pl.newcomer !in s.past;
    forall m | TrafficOf(w.net, m).copies != multiset{}
      ensures m in NextPast(s).Values
    {
      if Planned(pl, m) {
        SameTraffic(pl, w, m);
        assert m == pl.readyNotif == NextPast(s)[pl.newcomer];
      } else {
        var y :| y in s.past && s.past[y] == m;
        assert NextPast(s)[y] == m;
      }
    }
  }

  /** The entry point without its arrears, but for y's request. */
  function AskedBy(y: Id, n: Node, a: Address): Node
    requires a in n.newPeers
  {
    Paid(y, n).(newPeers := Blank(n.newPeers)[a := n.newPeers[a]])
  }

  lemma AnswersAlike(env: Env, y: Id, n: Node, a: Address, port: Port, st: Stamps)
    requires HasOwnMarker(env, n) && PeersKnown(n) && a in n.newPeers
    requires n.newPeers[a].id == y && n.newPeers[a].state == Joining
    ensures HasOwnMarker(env, AskedBy(y, n, a))
    ensures var o := AnswerJoin(env, n, a, port, st);
            && AnswerJoin(env, AskedBy(y, n, a), a, port, st) == Outcome(Paid(y, o.node), o.sends)
            && SameArrears(y, n.(newPeers := n.newPeers - {a}), o.node)
  {
    hide LogMessage, AcknowledgeJoin, MakeMarker, SameArrears, Elsewhere;
    var gid, x := n.group.value.id, n.newPeers[a];
    var notif := JoinNotif(st.first, MakeMarker(env.h, gid, gid), false, gid, x.id, x.pubKey, a, port);
    var like := AskedBy(y, n, a);
    LogsAlike(n.(joinToken := false), like.(joinToken := false), notif, None);
    var log := LogMessage(n.(joinToken := false), notif, None).log;
    var told := n.(newPeers := n.newPeers - {a}, log := log);
    assert Blank(told.newPeers) == like.newPeers - {a};
    AcknowledgesAlike(env, y, told, st.second);
    AnsweredKeeps(y, n, a, log, AcknowledgeJoin(env, told.(joinToken := false), y, Joining, st.second).node);
  }

  lemma AnsweredKeeps(y: Id, n: Node, a: Address, log: Log, acked: Node)
    requires SameArrears(y, n.(newPeers := n.newPeers - {a}, log := log), acked)
    ensures SameArrears(y, n.(newPeers := n.newPeers - {a}), acked.(readyTimers := acked.readyTimers + {y}))
    ensures Paid(y, acked.(readyTimers := acked.readyTimers + {y}))
            == Paid(y, acked).(readyTimers := Paid(y, acked).readyTimers + {y})
  {
  }

  /** Everybody waits for the next join: in the group, with arrears at most. */
  ghost predicate Awaiting(next: Plan, past: map<Id, Msg>, w: World)
    requires PlanOk(next)
  {
    && w.nodes.Keys == next.members && ArrearsOk(next.newcomer, next.members, past, w)
    && (forall p | p in next.members :: Untold(next, Paid(next.newcomer, w.nodes[p]), p))
    && (forall p | p in next.members && p != next.entry :: NobodyKnown(w.nodes[p].newPeers))
    && StampsApart(next, past)
    && (forall m :: TrafficOf(w.net, m).copies != multiset{} ==> m in past.Values)
    && forall m | Planned(next, m) :: m !in w.net
  }

  /** The entry point, owing nobody, with the request of the plan's newcomer. */
  ghost predicate AboutToAnswer(next: Plan, n: Node)
    requires PlanOk(next)
  {
    var a := next.addresses[next.newcomer];
    && Owed(next.newcomer, n) == {} && a in n.newPeers && n.newPeers[a].id == next.newcomer
    && n.newPeers[a].state == Joining && n.newPeers[a].pubKey == next.notif.pubKey
    && Admissions.Orderly(n) && n.id !in Admissions.Waiting(n)
  }

  /** The newcomer, which has called the entry point. */
  ghost predicate Caller(next: Plan, newcomer: Node)
    requires PlanOk(next)
  {
    && NewcomerOk(next, newcomer) && newcomer.peers == map[] && newcomer.state != Connected
    && next.addresses[next.entry] in newcomer.newPeers
  }

  ghost function Answering(next: Plan, w: World, newcomer: Node, o: Outcome): World {
    World(w.nodes[next.entry := o.node][next.newcomer := newcomer], PostAll(w.net, next.entry, o.sends))
  }

  /** The answer, without the arrears. */
  lemma NextAnswered(next: Plan, past: map<Id, Msg>, w: World)
    requires PlanOk(next) && Awaiting(next, past, w) && next.entry in w.nodes && next.entry in next.acks
    requires AboutToAnswer(next, w.nodes[next.entry]) && next.newcomer in next.addresses
    ensures HasOwnMarker(next.env, w.nodes[next.entry]) && next.addresses[next.newcomer] in w.nodes[next.entry].newPeers
    ensures var n := w.nodes[next.entry];
            var o := AnswerJoin(next.env, n, next.addresses[next.newcomer], next.notif.port, AnswerStamps(next));
            var v := Paid(next.newcomer, o.node);
            && MemberOk(next, v, next.entry) && Told(next, v) && !Done(next, v) && next.newcomer in v.readyTimers
            && v.log.entries[next.notif.stamp].control == Zeros(next.Graph().Pred(next.entry))
            && o.sends == [Sent(next.notif, next.Graph().Succ(next.entry)),
                           Sent(next.acks[next.entry], {next.newcomer})]
            && SameArrears(next.newcomer, n.(newPeers := n.newPeers - {next.addresses[next.newcomer]}), o.node)
  {
    hide PlanOk, ArrearsOk, NobodyKnown, StampsApart, MemberOk, Zeros, Graph.Succ, Graph.Pred, Plan.Graph, AnswerJoin,
      Paid, Admissions.Orderly, Admissions.Waiting, TrafficOf, HasOwnMarker, SameArrears, Told, Done, Untold;
    PlanIs(next);
    AckIs(next, next.entry);
    var y, n, a := next.newcomer, w.nodes[next.entry], next.addresses[next.newcomer];
    AwaitingKnown(next, past, w, next.entry);
    WithoutRequest(next, n);
    UntoldIs(next, Paid(y, n), next.entry);
    MemberIs(next, Paid(y, n), next.entry);
    AskedMarker(next.env, y, n, a);
    AnswersAlike(next.env, y, n, a, next.notif.port, AnswerStamps(next));
    Answered(next, AskedBy(y, n, a));
  }

  lemma AwaitingKnown(next: Plan, past: map<Id, Msg>, w: World, p: Id)
    requires PlanOk(next) && Awaiting(next, past, w) && p in next.members
    ensures p in w.nodes && PeersKnown(w.nodes[p]) && Lagging(next.newcomer, past, w.nodes[p])
  {
    hide PlanOk, NobodyKnown, StampsApart, Untold, TrafficOf, Paid;
  }

  lemma WithoutRequest(next: Plan, n: Node)
    requires next.newcomer in next.addresses && next.addresses[next.newcomer] in n.newPeers
    requires n.newPeers[next.addresses[next.newcomer]].state != New
    ensures WithoutCaller(next, AskedBy(next.newcomer, n, next.addresses[next.newcomer])) == Paid(next.newcomer, n)
  {
    var a := next.addresses[next.newcomer];
    assert Blank(n.newPeers)[a := n.newPeers[a]] - {a} == Blank(n.newPeers);
  }

  lemma AskedMarker(env: Env, y: Id, n: Node, a: Address)
    requires HasOwnMarker(env, Paid(y, n)) && a in n.newPeers
    ensures HasOwnMarker(env, n) && HasOwnMarker(env, AskedBy(y, n, a))
  {
  }

  /** Everybody before the answer, without arrears. */
  ghost function PaidBefore(next: Plan, w: World, newcomer: Node): map<Id, Node>
    requires w.nodes.Keys == next.members && next.entry in next.members && next.newcomer in next.addresses
  {
    var all := map p | p in next.members :: Paid(next.newcomer, w.nodes[p]);
    all[next.entry := Accept(all[next.entry], next.addresses[next.newcomer])][next.newcomer := newcomer]
  }

  lemma BeforeNext(next: Plan, past: map<Id, Msg>, w: World, newcomer: Node)
    requires PlanOk(next) && Awaiting(next, past, w) && Caller(next, newcomer)
    requires next.entry in next.members && next.newcomer in next.addresses && next.entry in next.addresses
    ensures Before(next, PaidBefore(next, w, newcomer))
  {
    hide PlanOk, NewcomerOk, Untold, Alone, NobodyKnown, ArrearsOk, StampsApart, TrafficOf, Paid, Planned;
    NewcomerIsNone(next);
    var e := next.entry;
    var v, a := Paid(next.newcomer, w.nodes[e]), next.addresses[next.newcomer];
    AwaitingKnown(next, past, w, e);
    PaidIs(next.newcomer, w.nodes[e]);
    BlankConnection(v, a);
    SelfSame(v.log, next.notif.stamp);
    SelfSame(v.log, next.readyNotif.stamp);
    LogMatters(next, v, e, v.log, Accept(v, a).newPeers);
    TokenPaid(next, w.nodes[e], e);
  }

  lemma BlankConnection(n: Node, a: Address)
    requires NobodyKnown(n.newPeers)
    ensures NobodyKnown(Accept(n, a).newPeers) && a in Accept(n, a).newPeers && Accept(n, a).joinToken == n.joinToken
    ensures Accept(n, a) == n.(log := n.log, newPeers := Accept(n, a).newPeers)
  {
  }

  lemma TokenPaid(next: Plan, n: Node, p: Id)
    requires PlanOk(next) && p in next.members && Untold(next, Paid(next.newcomer, n), p)
    ensures Paid(next.newcomer, n).joinToken && next.newcomer !in n.peers
  {
    hide PlanOk, MemberOk, HasOwnMarker, Coherent;
    NewcomerIsNone(next);
    UntoldIs(next, Paid(next.newcomer, n), p);
    MemberIs(next, Paid(next.newcomer, n), p);
    PaidAlike(next.newcomer, n);
  }

  /** The next join, without arrears, begins as any join does. */
  lemma NextStarts(next: Plan, past: map<Id, Msg>, w: World, newcomer: Node)
    requires PlanOk(next) && Awaiting(next, past, w) && Caller(next, newcomer)
    requires next.entry in w.nodes && next.entry in next.acks && next.newcomer in next.addresses
    requires AboutToAnswer(next, w.nodes[next.entry]) && HasOwnMarker(next.env, w.nodes[next.entry])
    requires next.addresses[next.newcomer] in w.nodes[next.entry].newPeers
    ensures var o := AnswerJoin(next.env, w.nodes[next.entry], next.addresses[next.newcomer], next.notif.port,
                                AnswerStamps(next));
            var v := PaidWorld(next, Answering(next, w, newcomer, o));
            && JoinInv(next, v) && v.nodes.Keys == next.Everyone() && next.entry in next.members
            && ProgressOf(next, v.nodes) == Progress({next.entry}, {}, {}, true, false)
            && FloodOf(v.nodes, v.net, next.notif) == Start(next.Graph(), {}, next.entry)
  {
    hide PlanOk, ArrearsOk, NobodyKnown, StampsApart, MemberOk, NewcomerOk, Zeros, Graph.Succ, Graph.Pred, Plan.Graph,
      AnswerJoin, Paid, AboutToAnswer, TrafficOf, HasOwnMarker, SameArrears, Told, Done, Untold, Before, JoinInv,
      ProgressOf, FloodOf, Start, PostAll, OnlyPlanned, PaidNodes, Planned, Caller;
    PlanIs(next);
    NextAnswered(next, past, w);
    BeforeNext(next, past, w, newcomer);
    var o := AnswerJoin(next.env, w.nodes[next.entry], next.addresses[next.newcomer], next.notif.port,
                        AnswerStamps(next));
    NextPlanned(next);
    PostsPlanned(next, w.net, next.entry, o.sends);
    assert OnlyPlanned(next, w.net) == map[] by { NothingPlanned(next, w.net); }
    NextNodes(next, w, newcomer, o);
    AnsweredStarts(next, PaidBefore(next, w, newcomer), PaidWorld(next, Answering(next, w, newcomer, o)));
  }

  lemma NextPlanned(next: Plan)
    requires PlanOk(next) && next.entry in next.acks
    ensures Planned(next, next.notif) && Planned(next, next.acks[next.entry])
  {
    hide PlanOk;
    NewcomerIsNone(next);
    AckIs(next, next.entry);
  }

  lemma NothingPlanned(pl: Plan, net: Net)
    requires forall m | Planned(pl, m) :: m !in net
    ensures OnlyPlanned(pl, net) == map[]
  {
  }

  lemma NextNodes(next: Plan, w: World, newcomer: Node, o: Outcome)
    requires w.nodes.Keys == next.members && next.entry in next.members && next.newcomer in next.addresses
    requires next.newcomer !in next.members
    ensures var nodes := PaidNodes(next, Answering(next, w, newcomer, o).nodes);
            && nodes.Keys == PaidBefore(next, w, newcomer).Keys == next.Everyone()
            && (forall p | p in nodes && p != next.entry :: nodes[p] == PaidBefore(next, w, newcomer)[p])
            && nodes[next.entry] == Paid(next.newcomer, o.node)
  {
    hide Paid, PostAll, Accept;
  }

  /** The entry point once it has answered. */
  lemma AnswererOk(y: Id, n: Node, a: Address, after: Node)
    requires a in n.newPeers && n.newPeers[a].id == y && n.newPeers[a].state == Joining && y !in n.peers
    requires Owed(y, n) == {} && Admissions.Orderly(n) && n.id !in Admissions.Waiting(n) && after.id == n.id
    requires SameArrears(y, n.(newPeers := n.newPeers - {a}), after)
    requires y in after.peers && after.peers[y] != Connected && !after.joinToken
    ensures EntryOk(y, after) && Owed(y, after) == {} && Admissions.Underway(after) != {}
    ensures Admissions.Waiting(after) == Admissions.Waiting(n) - {y}
  {
    LagsOnOwed(y, n.(newPeers := n.newPeers - {a}), after);
    assert Owed(y, n.(newPeers := n.newPeers - {a})) == Owed(y, n);
    assert y in Admissions.Underway(after);
    Admissions.WaitingLess(n, a, after);
    forall b | b in after.newPeers && after.newPeers[b].state != New
      ensures after.newPeers[b].id !in after.peers
    {
      assert b != a && n.newPeers[b].id != y;
      assert n.newPeers[b].id !in n.peers.Keys - {y};
    }
  }

  lemma ArrearsAside(x: Id, members: set<Id>, past: map<Id, Msg>, w: World, p: Id, n: Node)
    requires members <= w.nodes.Keys && p !in members && ArrearsOk(x, members, past, w)
    ensures ArrearsOk(x, members, past, World(w.nodes[p := n], w.net))
  {
    hide Lagging, TrafficOf, Fan, Owed;
    forall y | y in past
      ensures Expecting(x, members, w.nodes[p := n], y) == Expecting(x, members, w.nodes, y)
    {
    }
  }

  /** What the answer leaves of the entry point. */
  lemma NextEntry(next: Plan, past: map<Id, Msg>, w: World)
    requires PlanOk(next) && Awaiting(next, past, w) && next.entry in w.nodes && next.entry in next.acks
    requires AboutToAnswer(next, w.nodes[next.entry]) && HasOwnMarker(next.env, w.nodes[next.entry])
    requires next.newcomer in next.addresses && next.addresses[next.newcomer] in w.nodes[next.entry].newPeers
    ensures var n := w.nodes[next.entry];
            var after := AnswerJoin(next.env, n, next.addresses[next.newcomer], next.notif.port,
                                    AnswerStamps(next)).node;
            && EntryOk(next.newcomer, after) && Owed(next.newcomer, after) == {} && Admissions.Underway(after) != {}
            && PeersKnown(after) && after.joinTimers <= {next.newcomer}
            && Admissions.Waiting(after) == Admissions.Waiting(n) - {next.newcomer}
  {
    hide PlanOk, ArrearsOk, NobodyKnown, StampsApart, Coherent, Zeros, Graph.Pred, Plan.Graph, AnswerJoin, Paid, Told,
      TrafficOf, HasOwnMarker, Untold, Planned, Admissions.Orderly, Admissions.Waiting, EntryOk, MemberOk, Owed;
    PlanIs(next);
    AckIs(next, next.entry);
    var y, e, n, a := next.newcomer, next.entry, w.nodes[next.entry], next.addresses[next.newcomer];
    NextAnswered(next, past, w);
    AwaitingKnown(next, past, w, e);
    TokenPaid(next, n, e);
    UntoldIs(next, Paid(y, n), e);
    MemberIs(next, Paid(y, n), e);
    var after := AnswerJoin(next.env, n, a, next.notif.port, AnswerStamps(next)).node;
    MemberIs(next, Paid(y, after), e);
    ToldKnows(next, Paid(y, after), e);
    PaidIs(y, after);
    PaidIs(y, n);
    AnswererOk(y, n, a, after);
  }

  /** The answer leaves the arrears alone. */
  lemma NextArrears(next: Plan, past: map<Id, Msg>, w: World, newcomer: Node)
    requires PlanOk(next) && Awaiting(next, past, w) && next.entry in w.nodes && next.entry in next.acks
    requires AboutToAnswer(next, w.nodes[next.entry]) && HasOwnMarker(next.env, w.nodes[next.entry])
    requires next.newcomer in next.addresses && next.addresses[next.newcomer] in w.nodes[next.entry].newPeers
    ensures var o := AnswerJoin(next.env, w.nodes[next.entry], next.addresses[next.newcomer], next.notif.port,
                                AnswerStamps(next));
            var after := Answering(next, w, newcomer, o);
            && after.nodes.Keys == next.Everyone() && ArrearsOk(next.newcomer, next.members, past, after)
            && (forall p | p in next.members && p != next.entry :: NobodyKnown(after.nodes[p].newPeers))
            && NoStrays(next, past, after.net) && StampsApart(next, past)
  {
    hide PlanOk, ArrearsOk, NobodyKnown, StampsApart, MemberOk, Zeros, Graph.Succ, Graph.Pred, Plan.Graph, AnswerJoin,
      Paid, TrafficOf, HasOwnMarker, SameArrears, Told, Done, Untold, PostAll, Planned, EntryOk, Owed,
      Admissions.Underway, Admissions.Orderly, Admissions.Waiting, PeersKnown;
    PlanIs(next);
    var e, y, n := next.entry, next.newcomer, w.nodes[next.entry];
    NextEntry(next, past, w);
    NextAnswered(next, past, w);
    var o := AnswerJoin(next.env, n, next.addresses[y], next.notif.port, AnswerStamps(next));
    NextPlanned(next);
    PostsPlanned(next, w.net, e, o.sends);
    var net := PostAll(w.net, e, o.sends);
    ApartPast(next, past);
    SameDebtsElsewhere(y, next.members, past, w, e, o.node, net);
    ArrearsAside(y, next.members, past, World(w.nodes[e := o.node], net), y, newcomer);
    NextStrays(next, past, w, net);
  }

  lemma NextInOrder(next: Plan, past: map<Id, Msg>, w: World, newcomer: Node)
    requires PlanOk(next) && Awaiting(next, past, w) && Caller(next, newcomer)
    requires next.entry in w.nodes && next.entry in next.acks && next.newcomer in next.addresses
    requires AboutToAnswer(next, w.nodes[next.entry]) && HasOwnMarker(next.env, w.nodes[next.entry])
    requires next.addresses[next.newcomer] in w.nodes[next.entry].newPeers
    ensures var o := AnswerJoin(next.env, w.nodes[next.entry], next.addresses[next.newcomer], next.notif.port,
                                AnswerStamps(next));
            var after := Answering(next, w, newcomer, o);
            && InOrder(Stage(next, past, after)) && next.entry in next.members
            && PaidWorld(next, after).nodes.Keys == next.Everyone()
            && Remaining(next, PaidWorld(next, after)) <= 13 * |next.members| + 1
            && Admissions.Waiting(o.node) == Admissions.Waiting(w.nodes[next.entry]) - {next.newcomer}
  {
    hide PlanOk, ArrearsOk, NobodyKnown, StampsApart, Plan.Graph, AnswerJoin, TrafficOf, HasOwnMarker, JoinInv,
      PaidWorld, ProgressOf, FloodOf, Start, PostAll, Caller, EntryOk, Remaining, NoStrays, Admissions.Underway,
      Admissions.Waiting, AboutToAnswer, PeersKnown, Owed, Awaiting;
    PlanIs(next);
    NextStarts(next, past, w, newcomer);
    NextEntry(next, past, w);
    NextArrears(next, past, w, newcomer);
    var o := AnswerJoin(next.env, w.nodes[next.entry], next.addresses[next.newcomer], next.notif.port,
                        AnswerStamps(next));
    StartIsShort(next, PaidWorld(next, Answering(next, w, newcomer, o)));
    assert newcomer.state != Connected by { CallerIs(next, newcomer); }
  }

  lemma CallerIs(next: Plan, newcomer: Node)
    requires PlanOk(next) && Caller(next, newcomer)
    ensures newcomer.state != Connected
  {
    hide PlanOk, NewcomerOk;
  }

  lemma ApartPast(pl: Plan, past: map<Id, Msg>)
    requires StampsApart(pl, past)
    ensures forall y | y in past :: !Planned(pl, past[y])
  {
    hide Planned;
  }

  lemma NextStrays(next: Plan, past: map<Id, Msg>, w: World, net: Net)
    requires forall m :: TrafficOf(w.net, m).copies != multiset{} ==> m in past.Values
    requires forall m | !Planned(next, m) :: TrafficOf(net, m) == TrafficOf(w.net, m)
    ensures NoStrays(next, past, net)
  {
    hide Planned, TrafficOf;
  }

  /** A plan for one more newcomer, in messages nobody has seen. */
  ghost predicate Fits(s: Stage, next: Plan)
    requires s.world.nodes.Keys == s.plan.Everyone()
  {
    && PlanOk(next) && next.env == s.plan.env && next.groupId == s.plan.groupId && next.members == s.plan.Everyone()
    && (forall p | p in next.members ::
      && next.acks[p].pubKey == s.world.nodes[p].pubKey
      && !s.world.nodes[p].log.Logged(next.notif.stamp) && !s.world.nodes[p].log.Logged(next.readyNotif.stamp))
    && (forall m | Planned(next, m) :: m !in s.world.net) && StampsApart(next, NextPast(s))
  }

  lemma NoTimerYet(s: Stage, y: Id, p: Id)
    requires InOrder(s) && TookPlace(s) && p in s.plan.Everyone() && y !in s.plan.Everyone() && p in s.world.nodes
    ensures PeersKnown(s.world.nodes[p]) && y !in s.world.nodes[p].peers && y !in s.world.nodes[p].joinTimers
  {
    hide InOrder, PlanOk, MemberOk, NewcomerOk, PaidWorld, JoinInv, Coherent, PeersKnown;
    StageParts(s);
    MemberOfAll(s, p);
    if p == s.plan.newcomer {
      NewcomerHasNoDebts(s.plan, s.past, s.world.nodes[p]);
    } else {
      assert y !in s.world.nodes[p].joinTimers - {s.plan.newcomer};
    }
  }

  lemma MemberAwaits(s: Stage, next: Plan, p: Id)
    requires InOrder(s) && TookPlace(s) && s.world.nodes.Keys == s.plan.Everyone() && Fits(s, next)
    requires p in next.members && next.newcomer !in next.members
    ensures Untold(next, Paid(next.newcomer, s.world.nodes[p]), p)
  {
    hide InOrder, PlanOk, Coherent, NobodyKnown, Untold, TookPlace, StampsApart, Planned;
    var n, y := s.world.nodes[p], next.newcomer;
    MemberOfAll(s, p);
    NoTimerYet(s, y, p);
    PaidIs(y, n);
    CoherentAlike(next.env, n, Paid(y, n));
    AckIs(next, p);
    Lifecycles.OldMemberIsUntold(next, Paid(y, n), p);
  }

  lemma NextAwaits(s: Stage, next: Plan)
    requires InOrder(s) && TookPlace(s) && s.world.nodes.Keys == s.plan.Everyone() && Fits(s, next)
    requires s.plan.entry in s.world.nodes
    requires next.entry != s.plan.entry ==> NobodyKnown(s.world.nodes[s.plan.entry].newPeers)
    ensures Awaiting(next, NextPast(s), s.world)
  {
    hide PlanOk, ArrearsOk, NoStrays, StampsApart, EntryOk, PaidWorld, NobodyKnown, MemberOk, NewcomerOk, Planned,
      JoinInv, Untold, TrafficOf, Paid;
    NewcomerIsNone(next);
    ArrearsPassOn(s, next.newcomer);
    SeatedTraffic(s);
    forall p | p in next.members
      ensures Untold(next, Paid(next.newcomer, s.world.nodes[p]), p)
    {
      MemberAwaits(s, next, p);
    }
    forall p | p in next.members && p != next.entry
      ensures NobodyKnown(s.world.nodes[p].newPeers)
    {
      MemberOfAll(s, p);
    }
  }

  /** The entry point changes, and the next join can still begin. */
  lemma StillAwaits(next: Plan, past: map<Id, Msg>, w: World, n: Node, net: Net)
    requires PlanOk(next) && Awaiting(next, past, w) && next.entry in next.members && next.entry in w.nodes
    requires ArrearsOk(next.newcomer, next.members, past, World(w.nodes[next.entry := n], net))
    requires Paid(next.newcomer, n) == Paid(next.newcomer, w.nodes[next.entry]).(log := n.log)
    requires SameEntry(w.nodes[next.entry].log, n.log, next.notif.stamp)
    requires SameEntry(w.nodes[next.entry].log, n.log, next.readyNotif.stamp)
    requires net.Keys == w.net.Keys
    requires forall m :: TrafficOf(net, m).copies <= TrafficOf(w.net, m).copies
    ensures Awaiting(next, past, World(w.nodes[next.entry := n], net))
  {
    hide PlanOk, ArrearsOk, StampsApart, NobodyKnown, Untold, TrafficOf, Planned, Paid;
    var v := Paid(next.newcomer, w.nodes[next.entry]);
    AwaitingKnown(next, past, w, next.entry);
    PaidIs(next.newcomer, w.nodes[next.entry]);
    LogMatters(next, v, next.entry, n.log, v.newPeers);
    assert v.(log := n.log, newPeers := v.newPeers) == v.(log := n.log);
    forall m | TrafficOf(net, m).copies != multiset{}
      ensures m in past.Values
    {
      assert TrafficOf(w.net, m).copies != multiset{};
    }
  }

  // by a request, while the token is free

  /** Somebody calls a member that owes nobody, while nobody waits. */
  ghost predicate FreeToAnswer(s: Stage, next: Plan, stamp: Bytes)
    requires s.world.nodes.Keys == s.plan.Everyone() && Fits(s, next)
  {
    var n, a := s.world.nodes[next.entry], next.addresses[next.newcomer];
    && s.plan.entry in s.world.nodes && NobodyKnown(s.world.nodes[s.plan.entry].newPeers)
    && Admissions.Underway(n) == {} && a !in n.newPeers && FreshRequest(next, n, stamp)
  }

  lemma AskerAnswered(env: Env, n: Node, a: Address, m: Msg, st: Stamps)
    requires m.Join? && n.joinToken && a !in n.newPeers && !n.log.Logged(m.stamp)
    requires n.state == Connected && HasOwnMarker(env, n)
    ensures CanReceive(env, Accept(n, a), Unsorted(a), m, st)
    ensures var named := n.(newPeers := n.newPeers[a := Pending(m.id, m.pubKey, Joining, 0)]);
            var log := LogMessage(named, m, Some(m.id)).log;
            && Elsewhere(n.log, log, {m.stamp}) && HasOwnMarker(env, named.(log := log))
            && Receive(env, Accept(n, a), Unsorted(a), m, st) == AnswerJoin(env, named.(log := log), a, m.port, st)
  {
    hide LogMessage, MakeMarker, SameEntry, AnswerJoin;
    var named := n.(newPeers := n.newPeers[a := Pending(m.id, m.pubKey, Joining, 0)]);
    assert Accept(n, a).newPeers[a := Pending(m.id, m.pubKey, Joining, 0)] == named.newPeers;
    LogEffect(named, m, Some(m.id));
    var o := AnswerJoin(env, LogMessage(named, m, Some(m.id)), a, m.port, st);
    assert [] + o.sends == o.sends;
  }

  /** A node nobody waits at, once somebody has asked. */
  function Named(n: Node, a: Address, m: Msg, log: Log): Node
    requires m.Join?
  {
    n.(newPeers := n.newPeers[a := Pending(m.id, m.pubKey, Joining, 0)], log := log)
  }

  lemma NamedIs(n: Node, a: Address, m: Msg, log: Log)
    requires m.Join? && a !in n.newPeers && NobodyKnown(n.newPeers) && m.id !in n.peers && m.id != n.id
    ensures var g := Named(n, a, m, log);
            && Paid(m.id, g) == Paid(m.id, n).(log := g.log) && Owed(m.id, g) == Owed(m.id, n)
            && Admissions.Orderly(g) && g.id !in Admissions.Waiting(g) && Admissions.Waiting(g) == {m.id}
            && g.log == log && g.peers == n.peers && g.joinTimers == n.joinTimers && g.joinToken == n.joinToken
            && a in g.newPeers && g.newPeers[a] == Pending(m.id, m.pubKey, Joining, 0)
  {
    var g := Named(n, a, m, log);
    assert Blank(g.newPeers) == Blank(n.newPeers);
    assert a in g.newPeers && g.newPeers[a].id == m.id;
    assert forall b | b in g.newPeers && g.newPeers[b].state != New :: b == a;
  }

  lemma OwesNobody(s: Stage, y: Id, p: Id)
    requires InOrder(s) && TookPlace(s) && p in s.plan.Everyone() && y !in s.plan.Everyone() && p in s.world.nodes
    requires Admissions.Underway(s.world.nodes[p]) == {}
    ensures var n := s.world.nodes[p];
            && Owed(y, n) == {} && n.joinToken && n.joinTimers <= {y} && PeersKnown(n)
            && n.id == p && n.state == Connected && y !in n.peers
  {
    hide InOrder, Coherent, Done;
    DebtsPassOn(s, y, p);
    MemberOfAll(s, p);
    assert Owed(y, s.world.nodes[p]) <= Admissions.Underway(s.world.nodes[p]);
  }

  lemma FitsIs(s: Stage, next: Plan)
    requires s.world.nodes.Keys == s.plan.Everyone() && Fits(s, next)
    ensures PlanOk(next) && next.env == s.plan.env && next.members == s.plan.Everyone()
    ensures next.entry in s.world.nodes && next.entry in next.members && next.newcomer !in s.plan.Everyone()
    ensures next.entry in next.acks && next.newcomer in next.addresses && next.notif.JoinNotif?
  {
    hide PlanOk, StampsApart, Planned;
    PlanIs(next);
  }

  lemma AwaitingMarker(next: Plan, past: map<Id, Msg>, w: World)
    requires PlanOk(next) && Awaiting(next, past, w) && next.entry in next.members
    ensures next.entry in w.nodes && HasOwnMarker(next.env, w.nodes[next.entry])
  {
    hide PlanOk, ArrearsOk, StampsApart, NobodyKnown, Untold, TrafficOf, Planned, Paid, MemberOk;
    var n := w.nodes[next.entry];
    UntoldIs(next, Paid(next.newcomer, n), next.entry);
    MemberIs(next, Paid(next.newcomer, n), next.entry);
    PaidMarker(next.env, next.newcomer, n);
  }

  lemma PaidMarker(env: Env, y: Id, n: Node)
    ensures HasOwnMarker(env, Paid(y, n)) <==> HasOwnMarker(env, n)
  {
  }

  lemma EntryQuiet(s: Stage, next: Plan, stamp: Bytes)
    requires InOrder(s) && TookPlace(s) && s.world.nodes.Keys == s.plan.Everyone() && Fits(s, next)
    requires FreeToAnswer(s, next, stamp) && next.entry in s.world.nodes
    ensures NobodyKnown(s.world.nodes[next.entry].newPeers)
  {
    hide PlanOk, ArrearsOk, NoStrays, StampsApart, EntryOk, NobodyKnown, JoinInv, Planned;
    FitsIs(s, next);
    MemberOfAll(s, next.entry);
  }

  /** The next join has begun, and whoever waited waits on, but for its newcomer. */
  ghost predicate Opened(s: Stage, next: Plan, after: World) {
    && InOrder(Stage(next, NextPast(s), after)) && next.members == s.plan.Everyone()
    && s.plan.entry in s.world.nodes && next.entry in after.nodes && next.entry in next.members
    && Admissions.Waiting(after.nodes[next.entry])
       == Admissions.Waiting(s.world.nodes[s.plan.entry]) - {next.newcomer}
    && PaidWorld(next, after).nodes.Keys == next.Everyone()
    && Remaining(next, PaidWorld(next, after)) <= 13 * |next.members| + 1
  }

  lemma Opens(s: Stage, next: Plan, newcomer: Node, n: Node, net: Net)
    requires s.world.nodes.Keys == s.plan.Everyone() && Fits(s, next) && s.plan.entry in s.world.nodes
    requires Awaiting(next, NextPast(s), World(s.world.nodes[next.entry := n], net)) && AboutToAnswer(next, n)
    requires Caller(next, newcomer) && next.newcomer in next.addresses
    requires Admissions.Waiting(n) - {next.newcomer}
             == Admissions.Waiting(s.world.nodes[s.plan.entry]) - {next.newcomer}
    ensures HasOwnMarker(next.env, n) && next.addresses[next.newcomer] in n.newPeers
    ensures next.entry in next.acks && next.notif.JoinNotif?
    ensures var o := AnswerJoin(next.env, n, next.addresses[next.newcomer], next.notif.port, AnswerStamps(next));
            Opened(s, next, Answering(next, World(s.world.nodes, net), newcomer, o))
  {
    hide PlanOk, Awaiting, Caller, AnswerJoin, HasOwnMarker, InOrder, PaidWorld, Remaining, Fits, Admissions.Waiting,
      Admissions.Orderly, Owed, PostAll, Planned, StampsApart;
    FitsIs(s, next);
    var w := World(s.world.nodes[next.entry := n], net);
    AwaitingMarker(next, NextPast(s), w);
    NextInOrder(next, NextPast(s), w, newcomer);
    var o := AnswerJoin(next.env, n, next.addresses[next.newcomer], next.notif.port, AnswerStamps(next));
    assert s.world.nodes[next.entry := n][next.entry := o.node] == s.world.nodes[next.entry := o.node];
  }

  lemma RequestAwaits(s: Stage, next: Plan, m: Msg, log: Log)
    requires InOrder(s) && TookPlace(s) && s.world.nodes.Keys == s.plan.Everyone() && Fits(s, next)
    requires Awaiting(next, NextPast(s), s.world) && next.entry in next.members && next.newcomer in next.addresses
    requires Admissions.Underway(s.world.nodes[next.entry]) == {} && m.Join? && m.id == next.newcomer
    requires NobodyKnown(s.world.nodes[next.entry].newPeers)
    requires next.addresses[next.newcomer] !in s.world.nodes[next.entry].newPeers
    requires Elsewhere(s.world.nodes[next.entry].log, log, {m.stamp})
    requires m.stamp != next.notif.stamp && m.stamp != next.readyNotif.stamp && m.pubKey == next.notif.pubKey
    ensures var g := Named(s.world.nodes[next.entry], next.addresses[next.newcomer], m, log);
            && AboutToAnswer(next, g) && Admissions.Waiting(g) == {next.newcomer}
            && Awaiting(next, NextPast(s), World(s.world.nodes[next.entry := g], s.world.net))
  {
    hide PlanOk, ArrearsOk, StampsApart, NobodyKnown, Untold, TrafficOf, Planned, Paid, InOrder, Named, Owed, Fits,
      Awaiting, Admissions.Waiting, Admissions.Orderly, Admissions.Underway, NextPast;
    FitsIs(s, next);
    var e, y, n, w := next.entry, next.newcomer, s.world.nodes[next.entry], s.world;
    OwesNobody(s, y, e);
    var g := Named(n, next.addresses[y], m, log);
    NamedIs(n, next.addresses[y], m, log);
    ArrearsPassOn(s, y);
    SameDebtsElsewhere(y, next.members, NextPast(s), w, e, g, w.net);
    assert SameEntry(n.log, log, next.notif.stamp) && SameEntry(n.log, log, next.readyNotif.stamp);
    StillAwaits(next, NextPast(s), w, g, w.net);
  }

  /** A request opens the next join where the token is free. */
  lemma RequestOpens(s: Stage, next: Plan, newcomer: Node, stamp: Bytes)
    requires InOrder(s) && TookPlace(s) && s.world.nodes.Keys == s.plan.Everyone() && Fits(s, next)
    requires FreeToAnswer(s, next, stamp) && Caller(next, newcomer) && next.entry in next.acks
    requires next.newcomer in next.addresses && next.entry in s.world.nodes && next.notif.JoinNotif?
    ensures var n, a := s.world.nodes[next.entry], next.addresses[next.newcomer];
            && CanReceive(next.env, Accept(n, a), Unsorted(a), Request(next, stamp), AnswerStamps(next))
            && var o := Receive(next.env, Accept(n, a), Unsorted(a), Request(next, stamp), AnswerStamps(next));
               Opened(s, next, Answering(next, s.world, newcomer, o))
  {
    hide PlanOk, NobodyKnown, InOrder, HasOwnMarker, Caller, CanReceive, Receive, Elsewhere, LogMessage, Owed,
      Admissions.Underway, Admissions.Waiting, Admissions.Orderly, Awaiting, AnswerJoin, Opened, Fits, NextPast,
      AboutToAnswer;
    FitsIs(s, next);
    var e, y, a, m := next.entry, next.newcomer, next.addresses[next.newcomer], Request(next, stamp);
    var n := s.world.nodes[e];
    NextAwaits(s, next);
    OwesNobody(s, y, e);
    AwaitingMarker(next, NextPast(s), s.world);
    EntryQuiet(s, next, stamp);
    AskerAnswered(next.env, n, a, m, AnswerStamps(next));
    var log := LogMessage(n.(newPeers := n.newPeers[a := Pending(m.id, m.pubKey, Joining, 0)]), m, Some(m.id)).log;
    RequestAwaits(s, next, m, log);
    NobodyWaiting(s.world.nodes[s.plan.entry]);
    Opens(s, next, newcomer, Named(n, a, m, log), s.world.net);
  }

  lemma NobodyWaiting(n: Node)
    requires NobodyKnown(n.newPeers)
    ensures Admissions.Waiting(n) == {}
  {
  }

  // by a completion, while somebody waits

  lemma TokenAside(env: Env, n: Node, token: bool, a: Address, port: Port, st: Stamps)
    requires HasOwnMarker(env, n) && a in n.newPeers
    ensures HasOwnMarker(env, n.(joinToken := token))
    ensures AnswerJoin(env, n.(joinToken := token), a, port, st) == AnswerJoin(env, n, a, port, st)
  {
    hide AcknowledgeJoin, LogMessage, MakeMarker;
  }

  lemma FirstIsAnswered(env: Env, n: Node, a: Address, st: Stamps)
    requires HasOwnMarker(env, n) && FirstKnown(n.newPeers, a)
    ensures CanCheck(env, n)
    ensures CheckForNewPeers(env, n, st) == AnswerJoin(env, n, a, n.newPeers[a].port, st)
  {
    hide AnswerJoin, MakeMarker;
    OneFirstKnown(n.newPeers);
  }

  lemma NoticeAnswers(env: Env, n: Node, x: Id, m: Msg, st: Stamps, a: Address)
    requires PeersKnown(n) && x in n.peers && m.ReadyNotif? && !n.log.Logged(m.stamp)
    requires HasOwnMarker(env, n) && FirstKnown(n.newPeers, a)
    ensures CanReceive(env, n, Member(x), m, st)
    ensures var log := LogMessage(n, m, Some(x)).log; var c := Relying(n, x, log, n.joinTimers);
            && Elsewhere(n.log, log, {m.stamp}) && HasOwnMarker(env, c) && a in c.newPeers
            && Receive(env, n, Member(x), m, st) == AnswerJoin(env, c, a, c.newPeers[a].port, st)
  {
    hide LogMessage, CheckForNewPeers, CanCheck, AnswerJoin, FirstKnown, MakeMarker, SameEntry;
    LogEffect(n, m, Some(x));
    var log := LogMessage(n, m, Some(x)).log;
    var c := Seen(n.(log := log), Member(x));
    FirstHere(n.newPeers, a);
    FirstIsAnswered(env, Seen(n, Member(x)), a, st);
    FirstIsAnswered(env, c, a, st);
    TokenAside(env, c, true, a, c.newPeers[a].port, st);
    var o := AnswerJoin(env, c, a, c.newPeers[a].port, st);
    assert [] + o.sends == o.sends;
  }

  lemma FirstHere(newPeers: map<Address, Pending>, a: Address)
    requires FirstKnown(newPeers, a)
    ensures a in newPeers && newPeers[a].state != New && !NobodyKnown(newPeers)
  {
  }

  lemma TimerAnswers(env: Env, n: Node, x: Id, st: Stamps, a: Address)
    requires x in n.peers && HasOwnMarker(env, n) && FirstKnown(n.newPeers, a)
    ensures CanCheck(env, n)
    ensures var c := Relying(n, x, n.log, n.joinTimers - {x});
            && HasOwnMarker(env, c) && a in c.newPeers
            && CompleteJoin(env, n, x, st) == AnswerJoin(env, c, a, c.newPeers[a].port, st)
  {
    hide CheckForNewPeers, AnswerJoin, FirstKnown, MakeMarker;
    FirstHere(n.newPeers, a);
    var c := n.(peers := n.peers[x := Connected], joinTimers := n.joinTimers - {x});
    FirstIsAnswered(env, c, a, st);
    TokenAside(env, c, true, a, c.newPeers[a].port, st);
  }

  /** The plan is for the waiting peer of least address. */
  ghost predicate NextInLine(s: Stage, next: Plan)
    requires s.world.nodes.Keys == s.plan.Everyone() && Fits(s, next) && s.plan.entry in s.world.nodes
  {
    var n, a := s.world.nodes[s.plan.entry], next.addresses[next.newcomer];
    && next.entry == s.plan.entry && FirstKnown(n.newPeers, a) && n.newPeers[a].id == next.newcomer
    && n.newPeers[a].pubKey == next.notif.pubKey && n.newPeers[a].port == next.notif.port
  }

  /** Relying on the newcomer at last, the entry point is about to answer. */
  lemma HandsOnAwaits(s: Stage, next: Plan, log: Log, joinTimers: set<Id>, net: Net)
    requires InOrder(s) && TookPlace(s) && s.world.nodes.Keys == s.plan.Everyone() && Fits(s, next)
    requires s.plan.entry in s.world.nodes && NextInLine(s, next)
    requires s.plan.newcomer in s.world.nodes[s.plan.entry].peers && !Done(s.plan, s.world.nodes[s.plan.entry])
    requires Settles(NextPast(s), s.world, s.plan.entry, s.plan.newcomer, log, joinTimers, net)
    requires net.Keys == s.world.net.Keys
    ensures var g := Relying(s.world.nodes[s.plan.entry], s.plan.newcomer, log, joinTimers);
            && AboutToAnswer(next, g)
            && Admissions.Waiting(g) == Admissions.Waiting(s.world.nodes[s.plan.entry])
            && Awaiting(next, NextPast(s), World(s.world.nodes[next.entry := g], net))
  {
    hide PlanOk, ArrearsOk, NobodyKnown, Untold, TrafficOf, Planned, Paid, InOrder, Owed, Awaiting, StampsApart,
      Admissions.Underway, Relying, FirstKnown, Done, Settles;
    FitsIs(s, next);
    EntryIs(s);
    var x, y, e, w := s.plan.newcomer, next.newcomer, s.plan.entry, s.world;
    var n, g := w.nodes[e], Relying(w.nodes[e], x, log, joinTimers);
    NewcomerIsNone(s.plan) by { StageParts(s); }
    NextAwaits(s, next);
    DebtsPassOn(s, y, e);
    assert x in Owed(y, n);
    SettlesIs(NextPast(s), w, e, x, log, joinTimers, net);
    ReliesOnOther(y, n, x, log, joinTimers);
    RelyingLogs(n, x, log, joinTimers);
    ArrearsPassOn(s, y);
    DebtSettled(y, next.members, NextPast(s), w, e, x, log, joinTimers, net);
    NextStampsApart(s, next);
    StillAwaits(next, NextPast(s), w, g, net);
    WaitersStay(n, x, log, joinTimers);
    FirstHere(n.newPeers, next.addresses[y]);
  }

  lemma NextStampsApart(s: Stage, next: Plan)
    requires s.world.nodes.Keys == s.plan.Everyone() && Fits(s, next)
    ensures next.notif.stamp != s.plan.readyNotif.stamp && next.readyNotif.stamp != s.plan.readyNotif.stamp
  {
    hide PlanOk;
    assert Planned(next, next.notif) && Planned(next, next.readyNotif);
    assert s.plan.newcomer in NextPast(s) && NextPast(s)[s.plan.newcomer] == s.plan.readyNotif;
  }

  lemma WaitersStay(n: Node, x: Id, log: Log, joinTimers: set<Id>)
    requires x in n.peers && Admissions.Orderly(n)
    ensures var g := Relying(n, x, log, joinTimers);
            && Admissions.Waiting(g) == Admissions.Waiting(n) && Admissions.Orderly(g)
            && g.newPeers == n.newPeers && g.id == n.id
  {
  }

  /** Its READY_NOTIF reaches the entry point, and whoever is first is answered. */
  lemma NoticeOpens(s: Stage, next: Plan, newcomer: Node)
    requires InOrder(s) && TookPlace(s) && s.world.nodes.Keys == s.plan.Everyone() && Fits(s, next)
    requires s.plan.entry in s.world.nodes && NextInLine(s, next) && Caller(next, newcomer)
    requires Edge(s.plan.newcomer, s.plan.entry) in TrafficOf(s.world.net, s.plan.readyNotif).copies
    requires next.entry in next.acks
    ensures s.plan.readyNotif in s.world.net
    ensures var n := s.world.nodes[s.plan.entry];
            && CanReceive(next.env, n, Member(s.plan.newcomer), s.plan.readyNotif, AnswerStamps(next))
            && var o := Receive(next.env, n, Member(s.plan.newcomer), s.plan.readyNotif, AnswerStamps(next));
               var net := Take(s.world.net, s.plan.readyNotif, Edge(s.plan.newcomer, s.plan.entry));
               Opened(s, next, Answering(next, World(s.world.nodes, net), newcomer, o))
  {
    hide PlanOk, NobodyKnown, InOrder, HasOwnMarker, Caller, CanReceive, Receive, Elsewhere, LogMessage,
      Admissions.Waiting, Awaiting, AnswerJoin, Opened, Fits, NextPast, EntryOk, JoinInv, FirstKnown, Relying,
      AboutToAnswer, TrafficOf, Take, Paid, PaidWorld, TookPlace, Settles, Done;
    FitsIs(s, next);
    EntryIs(s);
    var pl, x, e, n := s.plan, s.plan.newcomer, s.plan.entry, s.world.nodes[s.plan.entry];
    NoticeDue(s);
    var net := Take(s.world.net, pl.readyNotif, Edge(x, e));
    NoticeAnswers(pl.env, n, x, pl.readyNotif, AnswerStamps(next), next.addresses[next.newcomer]);
    var log := LogMessage(n, pl.readyNotif, Some(x)).log;
    NoticeSettles(s, log);
    HandsOnAwaits(s, next, log, n.joinTimers, net);
    RelyingNewPeers(n, x, log, n.joinTimers);
    Opens(s, next, newcomer, Relying(n, x, log, n.joinTimers), net);
  }

  /** What the notice in flight to the entry point means. */
  lemma NoticeDue(s: Stage)
    requires InOrder(s) && s.plan.entry in s.world.nodes
    requires Edge(s.plan.newcomer, s.plan.entry) in TrafficOf(s.world.net, s.plan.readyNotif).copies
    ensures var n := s.world.nodes[s.plan.entry];
            && s.plan.newcomer in n.peers && !Done(s.plan, n) && s.plan.newcomer !in n.joinTimers
            && !n.log.Logged(s.plan.readyNotif.stamp) && s.plan.readyNotif.ReadyNotif?
            && s.plan.readyNotif in s.world.net && TookPlace(s)
  {
    hide PlanOk, InOrder, NewcomerOk, Coherent, JoinInv, Paid, TrafficOf, PaidWorld, Lagging, Beside, Planned,
      ProgressOf, Nearest;
    StageParts(s);
    var pl, w, v, e := s.plan, s.world, PaidWorld(s.plan, s.world), s.plan.entry;
    MessagesDiffer(pl);
    SameTraffic(pl, w, pl.readyNotif);
    InNet(w.net, pl.readyNotif, Edge(pl.newcomer, e));
    ReadyNotifInFlight(pl, v, Edge(pl.newcomer, e));
    PaidIs(pl.newcomer, w.nodes[e]);
    AckedIs(pl, v.nodes);
    NewcomerIsNone(pl);
  }

  lemma NoticeSettles(s: Stage, log: Log)
    requires s.plan.entry in s.world.nodes && s.plan.readyNotif in s.world.net
    requires s.plan.newcomer !in s.world.nodes[s.plan.entry].joinTimers
    requires Elsewhere(s.world.nodes[s.plan.entry].log, log, {s.plan.readyNotif.stamp})
    ensures Settles(NextPast(s), s.world, s.plan.entry, s.plan.newcomer, log, s.world.nodes[s.plan.entry].joinTimers,
                    Take(s.world.net, s.plan.readyNotif, Edge(s.plan.newcomer, s.plan.entry)))
    ensures Take(s.world.net, s.plan.readyNotif, Edge(s.plan.newcomer, s.plan.entry)).Keys == s.world.net.Keys
  {
    hide Elsewhere, TrafficOf, Take;
    TakeIs(s.world.net, s.plan.readyNotif, Edge(s.plan.newcomer, s.plan.entry));
  }

  /** Or its timer for the newcomer expires there. */
  lemma TimerOpens(s: Stage, next: Plan, newcomer: Node)
    requires InOrder(s) && TookPlace(s) && s.world.nodes.Keys == s.plan.Everyone() && Fits(s, next)
    requires s.plan.entry in s.world.nodes && NextInLine(s, next) && Caller(next, newcomer)
    requires s.plan.newcomer in s.world.nodes[s.plan.entry].joinTimers && next.entry in next.acks
    ensures var n := s.world.nodes[s.plan.entry];
            && CanCheck(next.env, n)
            && var o := CompleteJoin(next.env, n, s.plan.newcomer, AnswerStamps(next));
               Opened(s, next, Answering(next, s.world, newcomer, o))
  {
    hide PlanOk, NobodyKnown, InOrder, HasOwnMarker, Caller, CompleteJoin, CanCheck, Admissions.Waiting, Awaiting,
      AnswerJoin, Opened, Fits, NextPast, EntryOk, JoinInv, FirstKnown, Relying, AboutToAnswer, TrafficOf, Paid,
      PaidWorld, TookPlace, Settles, Done;
    FitsIs(s, next);
    EntryIs(s);
    var pl, x, e, n := s.plan, s.plan.newcomer, s.plan.entry, s.world.nodes[s.plan.entry];
    TimerIsDue(s);
    TimerAnswers(pl.env, n, x, AnswerStamps(next), next.addresses[next.newcomer]);
    TimerSettles(s);
    HandsOnAwaits(s, next, n.log, n.joinTimers - {x}, s.world.net);
    RelyingNewPeers(n, x, n.log, n.joinTimers - {x});
    Opens(s, next, newcomer, Relying(n, x, n.log, n.joinTimers - {x}), s.world.net);
  }

  lemma TimerSettles(s: Stage)
    requires s.plan.entry in s.world.nodes && s.plan.newcomer in s.world.nodes[s.plan.entry].joinTimers
    ensures var n := s.world.nodes[s.plan.entry];
            Settles(NextPast(s), s.world, s.plan.entry, s.plan.newcomer, n.log, n.joinTimers - {s.plan.newcomer},
                    s.world.net)
  {
  }

  lemma TimerIsDue(s: Stage)
    requires InOrder(s) && s.plan.entry in s.world.nodes
    requires s.plan.newcomer in s.world.nodes[s.plan.entry].joinTimers
    ensures s.plan.newcomer in s.world.nodes[s.plan.entry].peers && !Done(s.plan, s.world.nodes[s.plan.entry])
  {
    hide PlanOk, InOrder, MemberOk, NewcomerOk, JoinInv, Paid, TrafficOf, PaidWorld, Lagging, Beside, CompleteJoin;
    StageParts(s);
    var pl, n := s.plan, s.world.nodes[s.plan.entry];
    PaidIs(pl.newcomer, n);
    TimerExpires(pl, Paid(pl.newcomer, n), pl.entry);
    ToldKnows(pl, Paid(pl.newcomer, n), pl.entry);
  }
}
