/** The counters of the history one by one: who sent which message, how often. */
module Counters {
  import opened Bytes
  import opened Rings
  import opened Groups
  import opened Messages
  import opened Logs
  import opened Nodes
  import opened Ledgers
  import opened Invariants
  import Joins

  /** How many copies of the message under this stamp came from q. */
  function Counter(log: Log, stamp: Bytes, q: Id): nat {
    if log.Logged(stamp) && q in log.entries[stamp].control then log.entries[stamp].control[q] else 0
  }

  /** Whom a request or an acknowledgement introduces: whoever sent it counts
      under this name. */
  function Introduces(m: Msg): set<Id> {
    match m
    case Join(_, id, _, _) => {id}
    case JoinAck(_, _, peerId, _) => {peerId}
    case _ => {}
  }

  /** By how much handling m raises the counter of q under this stamp: a copy
      counts for the peer it came from, as soon as that peer is known. */
  function Credited(n: Node, link: Link, m: Msg, stamp: Bytes, q: Id): nat
    requires LinkOk(n, link)
  {
    var who := match link case Member(id) => id case Unsorted(a) => n.newPeers[a].id;
    var state := match link case Member(id) => n.peers[id] case Unsorted(a) => n.newPeers[a].state;
    if stamp != m.stamp then 0
    else if n.log.Logged(stamp) then Joins.Once(who == q)
    else Joins.Once(state != New && who == q) + Joins.Once(q in Introduces(m))
  }

  lemma LogCounts(n: Node, m: Msg, from: Option<Id>, stamp: Bytes, q: Id)
    requires m.IsBroadcast() && !n.log.Logged(m.stamp) ==> Routable(n, m.marker)
    ensures Counter(LogMessage(n, m, from).log, stamp, q)
            == Counter(n.log, stamp, q) + Joins.Once(stamp == m.stamp && from == Some(q))
  {
    hide Serialize;
  }

  lemma AcknowledgeCounts(env: Env, n: Node, x: Id, asState: PeerState, ack: Bytes, stamp: Bytes, q: Id)
    requires n.group.Some?
    ensures Counter(AcknowledgeJoin(env, n, x, asState, ack).node.log, stamp, q) == Counter(n.log, stamp, q)
  {
    hide LogMessage, View.AddPeer, View.UpdateNeighbours, Counter;
    var v := n.group.value.AddPeer(env.key, x).UpdateNeighbours(env.key, n.id);
    LogCounts(n.(peers := n.peers[x := asState], group := Some(v)), JoinAck(ack, v.id, n.id, n.pubKey), None, stamp, q);
  }

  lemma AnswerCounts(env: Env, n: Node, a: Address, port: Port, st: Stamps, stamp: Bytes, q: Id)
    requires HasOwnMarker(env, n) && a in n.newPeers
    ensures Counter(AnswerJoin(env, n, a, port, st).node.log, stamp, q) == Counter(n.log, stamp, q)
  {
    hide LogMessage, AcknowledgeJoin, Counter;
    var gid, x := n.group.value.id, n.newPeers[a];
    var notif := JoinNotif(st.first, MakeMarker(env.h, gid, gid), false, gid, x.id, x.pubKey, a, port);
    var free := n.(joinToken := false);
    LogCounts(free, notif, None, stamp, q);
    var told := Broadcast(free, notif).node;
    AcknowledgeCounts(env, told.(newPeers := told.newPeers - {a}), x.id, x.state, st.second, stamp, q);
  }

  lemma CheckCounts(env: Env, n: Node, st: Stamps, stamp: Bytes, q: Id)
    requires CanCheck(env, n)
    ensures Counter(CheckForNewPeers(env, n, st).node.log, stamp, q) == Counter(n.log, stamp, q)
  {
    hide AnswerJoin, Counter, HasOwnMarker;
    forall a | FirstKnown(n.newPeers, a)
      ensures HasOwnMarker(env, n)
      ensures Counter(AnswerJoin(env, n, a, n.newPeers[a].port, st).node.log, stamp, q) == Counter(n.log, stamp, q)
    {
      AnswerCounts(env, n, a, n.newPeers[a].port, st, stamp, q);
    }
  }

  lemma JoinCounts(env: Env, n: Node, a: Address, m: Msg, st: Stamps, stamp: Bytes, q: Id)
    requires m.Join? && CanProcess(env, n, Unsorted(a), m, st)
    ensures Counter(Process(env, n, Unsorted(a), m, st).node.log, stamp, q)
            == Counter(n.log, stamp, q) + Joins.Once(stamp == m.stamp && q == m.id)
  {
    hide LogMessage, AnswerJoin, HasOwnMarker, View.AddToRings, Counter, Process;
    RequestIs(env, n, a, m, st);
    var g := Asked(env, n, a, m, st.groupId);
    var up := if n.state != Connected then Found(env, n, st.groupId) else n;
    LogCounts(up.(newPeers := up.newPeers[a := up.newPeers[a].(id := m.id, pubKey := m.pubKey, state := Joining)]),
              m, Some(m.id), stamp, q);
    if g.joinToken {
      AnswerCounts(env, g, a, m.port, st, stamp, q);
    }
  }

  lemma ProcessCounts(env: Env, n: Node, link: Link, m: Msg, st: Stamps, stamp: Bytes, q: Id)
    requires CanProcess(env, n, link, m, st)
    ensures Counter(Process(env, n, link, m, st).node.log, stamp, q)
            == Counter(n.log, stamp, q) + Joins.Once(stamp == m.stamp && q in Introduces(m))
  {
    hide LogMessage, AnswerJoin, AcknowledgeJoin, CheckForNewPeers, MakeMarker, View.AddPeer, View.AddToRings,
      View.UpdateNeighbours, Counter;
    match m
    case Join(_, id, pubKey, port) => JoinCounts(env, n, link.address, m, st, stamp, q);
    case JoinNotif(_, _, _, _, peerId, _, _, _) =>
      if Admits(n, m) {
        AcknowledgeCounts(env, n.(joinToken := false), peerId, Joining, st.first, stamp, q);
      }
    case JoinAck(_, groupId, peerId, _) =>
      var based :=
        if n.group.Some? then n
        else n.(group := Some(EmptyView(groupId)), markers := WithMarker(env, n.markers, groupId));
      LogCounts(based.(newPeers := based.newPeers - {link.address},
                       peers := based.peers[peerId := Connected],
                       group := Some(based.group.value.AddPeer(env.key, peerId))),
                m, Some(peerId), stamp, q);
    case Ready(_) =>
      if n.group.Some? && n.state != Connected {
        var v := n.group.value.AddToRings(env.key, n.id).UpdateNeighbours(env.key, n.id);
        LogCounts(n.(state := Connected, group := Some(v)), ReadyNotif(st.first), None, stamp, q);
      }
    case ReadyNotif(_) =>
      CheckCounts(env, Seen(n, link), st, stamp, q);
    case Data(_, _, _) =>
  }

  /** Handling a copy credits exactly the peer it came from, under its stamp, and
      no other counter moves. */
  lemma ReceiveCredits(env: Env, n: Node, link: Link, m: Msg, st: Stamps, stamp: Bytes, q: Id)
    requires CanReceive(env, n, link, m, st)
    ensures Counter(Receive(env, n, link, m, st).node.log, stamp, q)
            == Counter(n.log, stamp, q) + Credited(n, link, m, stamp, q)
  {
    hide Process, CanProcess, LogMessage;
    if !n.log.Logged(m.stamp) {
      var told := Relay(n, link, m).node;
      var credited := if Known(n, link) then LogMessage(n, m, Some(EmitterId(n, link))) else n;
      if Known(n, link) {
        LogCounts(n, m, Some(EmitterId(n, link)), stamp, q);
      }
      if m.IsBroadcast() && m.marker in n.markers {
        LogCounts(credited, m, None, stamp, q);
      }
      LogIsIrrelevant(env, n, told.log, link, m, st);
      ProcessCounts(env, told, link, m, st, stamp, q);
    }
  }

  ghost function CreditedBy(n: Node, ev: Event, stamp: Bytes, q: Id): nat {
    if ev.Receives? && Parse(ev.bytes, ev.before).Success? && LinkOk(n, ev.link)
    then Credited(n, ev.link, Parse(ev.bytes, ev.before).message, stamp, q)
    else 0
  }

  lemma EventCredits(env: Env, n: Node, ev: Event, stamp: Bytes, q: Id)
    requires Possible(env, n, ev)
    ensures Counter(After(env, n, ev).log, stamp, q) == Counter(n.log, stamp, q) + CreditedBy(n, ev, stamp, q)
  {
    hide LogMessage, Parse, Receive, CanReceive, CheckForNewPeers, View.RemovePeer, View.UpdateNeighbours, MakeMarker,
      Counter, Credited;
    match ev
    case Calls(entry, port, stamp') =>
      LogCounts(Accept(n, entry).(state := Joining), Join(stamp', n.id, n.pubKey, port), None, stamp, q);
    case Sends(content, stamp') =>
      var gid := n.group.value.id;
      LogCounts(n, Data(stamp', MakeMarker(env.h, gid, gid), content), None, stamp, q);
    case Receives(link, w, before, st) =>
      if Parse(w, before).Success? {
        ReceiveCredits(env, n, link, Parse(w, before).message, st, stamp, q);
      }
    case ReadyExpires(x, stamp') =>
      LogCounts(n, Ready(stamp'), None, stamp, q);
    case JoinExpires(x, st) =>
      var peers := if x in n.peers then n.peers[x := Connected] else n.peers;
      CheckCounts(env, n.(peers := peers, joinTimers := n.joinTimers - {x}), st, stamp, q);
    case _ =>
  }

  ghost function CreditedInRun(env: Env, n: Node, evs: seq<Event>, stamp: Bytes, q: Id): nat
    requires RunPossible(env, n, evs)
    decreases |evs|
  {
    if evs == [] then 0
    else CreditedBy(n, evs[0], stamp, q) + CreditedInRun(env, After(env, n, evs[0]), evs[1..], stamp, q)
  }

  /** Peer by peer, message by message: over every run that does not fail, a
      counter rises by the copies of that message that came from that peer, and by
      nothing else the node does or hears. */
  lemma {:induction false} RunCredits(env: Env, n: Node, evs: seq<Event>, stamp: Bytes, q: Id)
    requires RunPossible(env, n, evs)
    ensures Counter(RunEnd(env, n, evs).log, stamp, q)
            == Counter(n.log, stamp, q) + CreditedInRun(env, n, evs, stamp, q)
    decreases |evs|
  {
    hide Possible, After, Counter, CreditedBy;
    if evs != [] {
      EventCredits(env, n, evs[0], stamp, q);
      RunCredits(env, After(env, n, evs[0]), evs[1..], stamp, q);
    }
  }
}
