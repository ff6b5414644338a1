/** From two starting nodes to a group of any size: a first join is possible, the
    end of one join is the beginning of the next, and what has joined can
    broadcast. */
module Lifecycles {
  import opened Bytes
  import opened Rings
  import opened Groups
  import opened Messages
  import opened Logs
  import opened Nodes
  import opened Invariants
  import opened Limits
  import opened Floods
  import opened Systems
  import opened Joins
  import opened JoinWorlds
  import opened JoinStarts
  import Broadcasts
  import Admissions

  /** What two nodes need to meet: their ids and keys, the address each has for
      the other, the newcomer's port, a group id, and a stamp for each of the
      messages of the join. */
  datatype Meeting = Meeting(
    entry: Id,
    entryKey: Bytes,
    entryAddress: Address,
    newcomer: Id,
    newcomerKey: Bytes,
    newcomerAddress: Address,
    port: Port,
    groupId: Bytes,
    request: Bytes,
    notif: Bytes,
    ack: Bytes,
    ready: Bytes,
    readyNotif: Bytes)

  ghost predicate MeetingOk(env: Env, t: Meeting) {
    && KeysDistinct(env.key, {t.entry, t.newcomer}) && t.entry != t.newcomer && t.entryAddress != t.newcomerAddress
    && t.notif != t.ack && t.notif != t.ready && t.notif != t.readyNotif && t.ack != t.ready && t.ack != t.readyNotif
    && t.ready != t.readyNotif && t.request != t.notif && t.request != t.ack && t.request != t.ready
    && t.request != t.readyNotif
  }

  function FirstPlan(env: Env, t: Meeting): Plan {
    Plan(env, {t.entry}, t.entry, t.newcomer, t.groupId,
         JoinNotif(t.notif, MakeMarker(env.h, t.groupId, t.groupId), false, t.groupId, t.newcomer, t.newcomerKey,
                   t.newcomerAddress, t.port),
         map[t.entry := JoinAck(t.ack, t.groupId, t.entry, t.entryKey)], Ready(t.ready), ReadyNotif(t.readyNotif),
         map[t.entry := t.entryAddress, t.newcomer := t.newcomerAddress])
  }

  /** The two nodes, just started, once one has called the other. */
  function Calling(t: Meeting): map<Id, Node> {
    map[t.entry := Accept(StartingNode(t.entry, t.entryKey), t.newcomerAddress),
        t.newcomer := CallEntryPoint(StartingNode(t.newcomer, t.newcomerKey), t.entryAddress, t.port, t.request).0]
  }

  lemma FirstPlanOk(env: Env, t: Meeting)
    requires MeetingOk(env, t)
    ensures PlanOk(FirstPlan(env, t))
  {
    hide MakeMarker, KeysDistinct, Planned;
    var pl := FirstPlan(env, t);
    assert pl.Everyone() == {t.entry, t.newcomer};
    forall m, m' | Planned(pl, m) && Planned(pl, m') && m.stamp == m'.stamp
      ensures m == m'
    {
      FirstStamps(env, t, m);
      FirstStamps(env, t, m');
    }
  }

  lemma FirstStamps(env: Env, t: Meeting, m: Msg)
    requires Planned(FirstPlan(env, t), m)
    ensures var pl := FirstPlan(env, t);
            || (m == pl.notif && m.stamp == t.notif) || (m == pl.ready && m.stamp == t.ready)
            || (m == pl.readyNotif && m.stamp == t.readyNotif) || (m == pl.acks[t.entry] && m.stamp == t.ack)
  {
    hide MakeMarker;
  }

  /** Any node that has just started and called the entry point is a newcomer
      as the join theorem wants it. */
  lemma CallerIsNewcomer(pl: Plan, pubKey: Bytes, port: Port, request: Bytes)
    requires PlanOk(pl) && pl.entry in pl.addresses && pl.acks.Keys == pl.members
    requires request != pl.notif.stamp && request != pl.ready.stamp
        && forall p | p in pl.members :: request != pl.acks[p].stamp
    ensures var x := CallEntryPoint(StartingNode(pl.newcomer, pubKey), pl.addresses[pl.entry], port, request).0;
            NewcomerOk(pl, x) && x.peers == map[] && x.state != Connected && pl.addresses[pl.entry] in x.newPeers
  {
    hide MakeMarker, PlanOk, Serialize;
  }

  /** Two nodes that have just started can join: everything the join theorem
      asks for holds, and the request is the one the caller wrote. */
  lemma TwoNodesCanJoin(env: Env, t: Meeting)
    requires MeetingOk(env, t)
    ensures var pl := FirstPlan(env, t);
            && PlanOk(pl) && Before(pl, Calling(t)) && FreshRequest(pl, Calling(t)[t.entry], t.request)
            && Request(pl, t.request)
               == CallEntryPoint(StartingNode(t.newcomer, t.newcomerKey), t.entryAddress, t.port, t.request).1
  {
    hide MakeMarker, KeysDistinct, PlanOk, NewcomerOk;
    FirstPlanOk(env, t);
    var pl := FirstPlan(env, t);
    CallerIsNewcomer(pl, t.newcomerKey, t.port, t.request);
    assert pl.Everyone() == {t.entry, t.newcomer};
    assert Alone(pl, Calling(t)[t.entry]);
  }

  // ------------------------------------------------------- the next join

  /** A plan for one more newcomer to the group a join has left: under stamps
      nobody has logged. */
  ghost predicate Follows(pl: Plan, w: World, next: Plan)
    requires PlanOk(pl) && Converged(pl, w)
  {
    && PlanOk(next) && next.env == pl.env && next.groupId == pl.groupId && next.members == pl.Everyone()
    && forall p | p in next.members ::
      && next.acks[p].pubKey == w.nodes[p].pubKey
      && !w.nodes[p].log.Logged(next.notif.stamp) && !w.nodes[p].log.Logged(next.readyNotif.stamp)
  }

  /** The next newcomer's connection at the entry point, and the newcomer. */
  function Meets(w: World, next: Plan, newcomer: Node): map<Id, Node>
    requires next.entry in w.nodes && next.newcomer in next.addresses
  {
    w.nodes[next.entry := Accept(w.nodes[next.entry], next.addresses[next.newcomer])][next.newcomer := newcomer]
  }

  lemma JoinedIs(pl: Plan, n: Node, p: Id)
    requires Joined(pl, n, p)
    ensures n.id == p && Coherent(pl.env, n) && n.state == Connected && n.group.Some? && n.group.value.id == pl.groupId
    ensures p in pl.Everyone() && n.peers.Keys == pl.Everyone() - {p} && n.joinTimers == {} && n.joinToken
    ensures NobodyKnown(n.newPeers) && forall q | q in n.peers :: n.peers[q] == Connected
  {
    hide Coherent;
  }

  lemma JoinedIsUntold(pl: Plan, w: World, next: Plan, p: Id)
    requires PlanOk(pl) && Converged(pl, w) && Follows(pl, w, next) && p in next.members
    ensures p in w.nodes && Untold(next, w.nodes[p], p)
  {
    hide PlanOk, Joined;
    JoinedIs(pl, w.nodes[p], p);
    AckIs(next, p);
    OldMemberIsUntold(next, w.nodes[p], p);
  }

  lemma OldMemberIsUntold(next: Plan, n: Node, p: Id)
    requires PlanOk(next) && p in next.members && n.id == p && Coherent(next.env, n) && n.state == Connected
    requires n.group.Some? && n.group.value.id == next.groupId && n.peers.Keys == next.members - {p}
    requires n.joinTimers == {} && NobodyKnown(n.newPeers) && forall q | q in n.peers :: n.peers[q] == Connected
    requires p in next.acks && n.pubKey == next.acks[p].pubKey
    requires !n.log.Logged(next.notif.stamp) && !n.log.Logged(next.readyNotif.stamp)
    ensures Untold(next, n, p)
  {
    hide PlanOk, Coherent;
    AckIs(next, p);
  }

  /** Where one join ends, the next can begin, at any entry point: so groups of
      every size are reached by joins. */
  lemma NextJoinCanBegin(pl: Plan, w: World, next: Plan, newcomer: Node)
    requires PlanOk(pl) && Converged(pl, w) && Follows(pl, w, next)
    requires NewcomerOk(next, newcomer) && newcomer.peers == map[] && newcomer.state != Connected
    requires next.entry in next.addresses && next.addresses[next.entry] in newcomer.newPeers
    ensures next.entry in w.nodes && next.newcomer in next.addresses && Before(next, Meets(w, next, newcomer))
  {
    hide PlanOk, NewcomerOk, Untold, Alone, Joined, NobodyKnown;
    NewcomerIsNone(next);
    forall p | p in next.members
      ensures Untold(next, w.nodes[p], p)
    {
      JoinedIsUntold(pl, w, next, p);
    }
    var a := next.addresses[next.newcomer];
    EntryAccepts(pl, next, w.nodes[next.entry], a) by {
      assert Joined(pl, w.nodes[next.entry], next.entry);
    }
  }

  lemma EntryAccepts(pl: Plan, next: Plan, n: Node, a: Address)
    requires PlanOk(next) && next.entry in next.members && Untold(next, n, next.entry) && Joined(pl, n, next.entry)
    ensures Untold(next, Accept(n, a), next.entry) && Accept(n, a).joinToken && NobodyKnown(Accept(n, a).newPeers)
  {
    hide PlanOk, Coherent;
    AckIs(next, next.entry);
    CoherentWithout(next.env, n, Accept(n, a).newPeers);
  }

  // ------------------------------------------------ broadcasts after a join

  /** Whoever has joined can broadcast: the group a join leaves satisfies what
      the broadcast theorems ask for. */
  lemma JoinedCanBroadcast(pl: Plan, w: World, riders: set<Id>)
    requires PlanOk(pl) && Converged(pl, w)
    ensures Broadcasts.WorldInv(Broadcasts.Setting(pl.env, pl.Everyone(), pl.groupId, riders),
                                Broadcasts.World(w.nodes, map[], map[]))
  {
    hide Settled, PlanOk, KeysDistinct, Joined, Broadcasts.Stable, Broadcasts.OnWire, Broadcasts.Setting.Graph;
    EveryoneKeys(pl);
    var s := Broadcasts.Setting(pl.env, pl.Everyone(), pl.groupId, riders);
    forall p | p in s.members
      ensures Broadcasts.Stable(s, w.nodes[p], p)
    {
      JoinedIsStable(pl, w.nodes[p], p, riders);
    }
  }

  lemma EveryoneKeys(pl: Plan)
    requires PlanOk(pl)
    ensures KeysDistinct(pl.env.key, pl.Everyone())
  {
  }

  lemma JoinedIsStable(pl: Plan, n: Node, p: Id, riders: set<Id>)
    requires Joined(pl, n, p)
    ensures Broadcasts.Stable(Broadcasts.Setting(pl.env, pl.Everyone(), pl.groupId, riders), n, p)
  {
    hide Settled;
  }

  // ------------------------------------------------ admission after a join

  /** Whoever has joined can be an entry point: every member of the group a join
      leaves satisfies what the admission theorems ask for. */
  lemma JoinedCanAdmit(pl: Plan, w: World, ids: set<Id>, p: Id)
    requires PlanOk(pl) && Converged(pl, w) && p in pl.Everyone()
    requires KeysDistinct(pl.env.key, ids) && pl.Everyone() <= ids
    ensures p in w.nodes && Admissions.AdmissionInv(pl.env, ids, w.nodes[p])
  {
    hide PlanOk, KeysDistinct, Coherent, Joined, Admissions.AdmissionInv;
    JoinedIs(pl, w.nodes[p], p);
    QuietAdmits(pl.env, ids, w.nodes[p]);
  }

  lemma QuietAdmits(env: Env, ids: set<Id>, n: Node)
    requires Coherent(env, n) && n.state == Connected && KeysDistinct(env.key, ids)
    requires n.id in ids && n.peers.Keys <= ids && forall q | q in n.peers :: n.peers[q] == Connected
    requires NobodyKnown(n.newPeers) && n.joinToken && n.joinTimers == {}
    ensures Admissions.AdmissionInv(env, ids, n)
  {
    hide KeysDistinct, Coherent;
    assert Admissions.Underway(n) == {};
    Admissions.WaitingIsKnown(n);
  }

  // ------------------------------------------------------ any number of joins

  /** One join after another: its plan, the newcomer and its request, what
      happens, and the world that leaves. */
  datatype Round = Round(plan: Plan, newcomer: Node, request: Bytes, steps: seq<Step>, end: World)

  /** The newcomer has just called, and the plan is for it. */
  ghost predicate Calls(pl: Plan, w: World, r: Round)
    requires PlanOk(pl) && Converged(pl, w)
  {
    && Follows(pl, w, r.plan) && NewcomerOk(r.plan, r.newcomer)
    && r.newcomer.peers == map[] && r.newcomer.state != Connected
    && r.plan.entry in r.plan.addresses && r.plan.addresses[r.plan.entry] in r.newcomer.newPeers
  }

  /** Each round begins where the one before ended, at any member, and runs in
      any interleaving until nothing is left to do. */
  ghost predicate InTurn(pl: Plan, w: World, rounds: seq<Round>)
    requires PlanOk(pl) && Converged(pl, w)
    decreases |rounds|
  {
    rounds == [] ||
    var r := rounds[0];
    && Calls(pl, w, r)
    && (NextJoinCanBegin(pl, w, r.plan, r.newcomer);
        PlanIs(r.plan);
        var nodes := Meets(w, r.plan, r.newcomer);
        && FreshRequest(r.plan, nodes[r.plan.entry], r.request)
        && JoinWorlds.Runs(r.plan, Answer(r.plan, nodes, r.request), r.steps, r.end)
        && Quiescent(r.plan, r.end)
        && (JoinConverges(r.plan, nodes, r.request, r.steps, r.end);
            InTurn(r.plan, r.end, rounds[1..])))
  }

  ghost function Newcomers(rounds: seq<Round>): set<Id> {
    set r | r in rounds :: r.plan.newcomer
  }

  /** A group of any size: however many newcomers join in turn, and through
      whatever members, all of them and everybody before end in one converged
      group. */
  lemma {:induction false} EveryoneJoins(pl: Plan, w: World, rounds: seq<Round>)
    requires PlanOk(pl) && Converged(pl, w) && InTurn(pl, w, rounds)
    ensures rounds != [] ==>
      var last := rounds[|rounds| - 1];
      && PlanOk(last.plan) && Converged(last.plan, last.end)
      && last.plan.Everyone() == pl.Everyone() + Newcomers(rounds) && last.plan.groupId == pl.groupId
    decreases |rounds|
  {
    hide PlanOk, Converged, Before, NewcomerOk, JoinWorlds.Runs, Quiescent, Answer, FreshRequest;
    if rounds != [] {
      var r, rest := rounds[0], rounds[1..];
      assert rounds == [r] + rest;
      RoundConverges(pl, w, rounds);
      EveryoneJoins(r.plan, r.end, rest);
      assert Newcomers(rounds) == {r.plan.newcomer} + Newcomers(rest) by { NewcomersFirst(rounds); }
      assert rest == [] ==> Newcomers(rest) == {};
    }
  }

  lemma NewcomersFirst(rounds: seq<Round>)
    requires rounds != []
    ensures Newcomers(rounds) == {rounds[0].plan.newcomer} + Newcomers(rounds[1..])
  {
    assert rounds == [rounds[0]] + rounds[1..];
    forall x
      ensures x in Newcomers(rounds) <==> x == rounds[0].plan.newcomer || x in Newcomers(rounds[1..])
    {
      if x in Newcomers(rounds) && x != rounds[0].plan.newcomer {
        var r :| r in rounds && r.plan.newcomer == x;
        assert r in rounds[1..];
      }
      if x in Newcomers(rounds[1..]) {
        var r :| r in rounds[1..] && r.plan.newcomer == x;
        assert r in rounds;
      }
      assert rounds[0] in rounds;
    }
  }

  lemma RoundConverges(pl: Plan, w: World, rounds: seq<Round>)
    requires PlanOk(pl) && Converged(pl, w) && InTurn(pl, w, rounds) && rounds != []
    ensures var r := rounds[0];
            && PlanOk(r.plan) && Converged(r.plan, r.end) && InTurn(r.plan, r.end, rounds[1..])
            && r.plan.members == pl.Everyone() && r.plan.groupId == pl.groupId
  {
    hide PlanOk, Converged, Before, NewcomerOk, JoinWorlds.Runs, Quiescent, Answer, FreshRequest;
    var r := rounds[0];
    NextJoinCanBegin(pl, w, r.plan, r.newcomer);
    PlanIs(r.plan);
    JoinConverges(r.plan, Meets(w, r.plan, r.newcomer), r.request, r.steps, r.end);
  }
}
