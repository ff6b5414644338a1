/** What becomes of a request: the group is told of it as it was made, or it
    waits, unless its connection is lost. */
module Departures {
  import opened Bytes
  import opened Rings
  import opened Groups
  import opened Messages
  import opened Logs
  import opened Nodes
  import opened Ledgers
  import I = Invariants
  import opened Invariants
  import opened Limits
  import opened Joins
  import opened Admissions

  // ------------------------------------------------------ the moment it goes

  /** The entry point forgets exactly the request that came over the connection,
      and is as ready to admit as before. */
  lemma LosingARequester(env: Env, ids: set<Id>, n: Node, p: Id, a: Address)
    requires AdmissionInv(env, ids, n) && p !in n.peers
    ensures var after := HandleDisconnect(env, n, p, a);
            && AdmissionInv(env, ids, after) && after.peers == n.peers && after.joinToken == n.joinToken
            && Waiting(after) == Waiting(n) - Asking(n, a)
  {
    hide RingsHold, CacheExact, MakeMarker, KeysDistinct, HandleDisconnect;
    FewerKeysDistinct(env.key, n.peers.Keys + {n.id}, ids);
    DisconnectKeeps(env, n, p, a);
    PendingPurged(env, n, p, a);
    WaitingWithout(n, a, HandleDisconnect(env, n, p, a));
    var after := HandleDisconnect(env, n, p, a);
    assert Underway(after) == Underway(n);
    if n.peers == map[] {
      assert Underway(n) == {};
    } else {
      assert OnRings(after) == OnRings(n);
      assert forall x | x in Underway(n) :: Beside(after, x) <==> Beside(n, x);
    }
  }

  /** Who asked over the connection from this address. */
  function Asking(n: Node, a: Address): set<Id> {
    if a in n.newPeers && n.newPeers[a].state != New then {n.newPeers[a].id} else {}
  }

  lemma WaitingWithout(n: Node, a: Address, after: Node)
    requires Orderly(n) && a !in after.newPeers
    requires forall b :: b in after.newPeers <==> b in n.newPeers && b != a
    requires forall b | b in after.newPeers :: after.newPeers[b] == n.newPeers[b]
    ensures Waiting(after) == Waiting(n) - Asking(n, a)
  {
    forall x
      ensures x in Waiting(after) <==> x in Waiting(n) && x !in Asking(n, a)
    {
      if x in Waiting(n) && x !in Asking(n, a) {
        var b :| b in n.newPeers && n.newPeers[b].state != New && n.newPeers[b].id == x;
        assert b in after.newPeers;
      }
    }
  }

  // ------------------------------------------------------------ ever after

  /** In no table. */
  ghost predicate Absent(n: Node, x: Id) {
    x !in n.peers && forall a | a in n.newPeers :: n.newPeers[a].id != x
  }

  /** Who a message says wants to join, joins, or has joined. */
  function Names(m: Msg): set<Id> {
    match m
    case Join(_, id, _, _) => {id}
    case JoinNotif(_, _, _, _, peerId, _, _, _) => {peerId}
    case JoinAck(_, _, peerId, _) => {peerId}
    case _ => {}
  }

  /** None of these messages announces x. */
  ghost predicate Silent(messages: set<Msg>, x: Id) {
    forall m | m in messages && m.JoinNotif? :: m.peerId != x
  }

  lemma AnswerLeavesOut(env: Env, n: Node, a: Address, port: Port, st: Stamps, x: Id)
    requires HasOwnMarker(env, n) && a in n.newPeers && Absent(n, x)
    ensures var o := AnswerJoin(env, n, a, port, st); Absent(o.node, x) && Silent(MessagesIn(o.sends), x)
  {
    hide LogMessage, MakeMarker, View.AddPeer, View.UpdateNeighbours;
    AnswerPeers(env, n, a, port, st);
  }

  lemma CheckLeavesOut(env: Env, n: Node, st: Stamps, x: Id)
    requires CanCheck(env, n) && Absent(n, x)
    ensures var o := CheckForNewPeers(env, n, st); Absent(o.node, x) && Silent(MessagesIn(o.sends), x)
  {
    hide AnswerJoin, HasOwnMarker;
    forall a | FirstKnown(n.newPeers, a)
      ensures CanCheck(env, n) && HasOwnMarker(env, n)
      ensures var o := AnswerJoin(env, n, a, n.newPeers[a].port, st);
              Absent(o.node, x) && Silent(MessagesIn(o.sends), x)
    {
      AnswerLeavesOut(env, n, a, n.newPeers[a].port, st, x);
    }
    SentTogether([], []);
    assert Silent(MessagesIn([]), x);
  }

  lemma JoinLeavesOut(env: Env, n: Node, a: Address, m: Msg, st: Stamps, x: Id)
    requires m.Join? && CanProcess(env, n, Unsorted(a), m, st) && Absent(n, x) && x != m.id
    ensures var o := Process(env, n, Unsorted(a), m, st); Absent(o.node, x) && Silent(MessagesIn(o.sends), x)
  {
    hide AnswerJoin, Asked, HasOwnMarker, Process, View.AddToRings;
    RequestIs(env, n, a, m, st);
    AskedIs(env, n, a, m, st.groupId);
    var g := Asked(env, n, a, m, st.groupId);
    assert Absent(g, x);
    if g.joinToken {
      AnswerLeavesOut(env, g, a, m.port, st, x);
    }
  }

  lemma ProcessLeavesOut(env: Env, n: Node, link: Link, m: Msg, st: Stamps, x: Id)
    requires CanProcess(env, n, link, m, st) && Absent(n, x) && x !in Names(m)
    ensures var o := Process(env, n, link, m, st); Absent(o.node, x) && Silent(MessagesIn(o.sends), x)
  {
    hide LogMessage, MakeMarker, View.AddPeer, View.AddToRings, View.UpdateNeighbours, CheckForNewPeers, AnswerJoin;
    if m.Join? {
      JoinLeavesOut(env, n, link.address, m, st, x);
    } else if m.ReadyNotif? {
      CheckLeavesOut(env, Seen(n, link), st, x);
    }
  }

  lemma ReceiveLeavesOut(env: Env, n: Node, link: Link, m: Msg, st: Stamps, x: Id)
    requires CanReceive(env, n, link, m, st) && Absent(n, x) && x !in Names(m)
    ensures var o := Receive(env, n, link, m, st); Absent(o.node, x) && Silent(MessagesIn(o.sends), x)
  {
    hide Process, CanProcess, LogMessage;
    if !n.log.Logged(m.stamp) {
      var told := Relay(n, link, m);
      LogIsIrrelevant(env, n, told.node.log, link, m, st);
      ProcessLeavesOut(env, told.node, link, m, st, x);
      SentTogether(told.sends, Process(env, told.node, link, m, st).sends);
    }
  }

  lemma EventLeavesOut(env: Env, n: Node, ev: I.Event, x: Id)
    requires Possible(env, n, ev) && Absent(n, x) && x != [] && forall m | m in HeardBy(ev) :: x !in Names(m)
    ensures Absent(I.After(env, n, ev), x) && Silent(WrittenBy(env, n, ev), x)
  {
    hide LogMessage, Parse, Receive, CanReceive, CheckForNewPeers, View.RemovePeer, View.UpdateNeighbours, MakeMarker;
    match ev
    case Receives(link, bytes, before, st) =>
      if Parse(bytes, before).Success? {
        ReceiveLeavesOut(env, n, link, Parse(bytes, before).message, st, x);
      }
    case JoinExpires(y, st) =>
      var peers := if y in n.peers then n.peers[y := Connected] else n.peers;
      CheckLeavesOut(env, n.(peers := peers, joinTimers := n.joinTimers - {y}), st, x);
    case _ =>
  }

  lemma {:induction false} RunLeavesOut(env: Env, n: Node, evs: seq<I.Event>, x: Id)
    requires RunPossible(env, n, evs) && Absent(n, x) && x != [] && forall m | m in HeardIn(evs) :: x !in Names(m)
    ensures Absent(I.RunEnd(env, n, evs), x) && Silent(WrittenIn(env, n, evs), x)
    decreases |evs|
  {
    hide Possible, I.After, Absent, Names, HeardBy, WrittenBy;
    if evs != [] {
      EventLeavesOut(env, n, evs[0], x);
      RunLeavesOut(env, I.After(env, n, evs[0]), evs[1..], x);
    }
  }

  /** Once the only connection somebody asked over is lost, it is not announced,
      answered or taken in, over every run that does not fail and whatever arrives,
      unless a message names it anew: a request of its own, or another member's
      word that it joins or has joined. */
  lemma LostForGood(env: Env, n: Node, a: Address, evs: seq<I.Event>)
    requires a in n.newPeers && n.newPeers[a].id != [] && n.newPeers[a].id !in n.peers
    requires forall b | b in n.newPeers && b != a :: n.newPeers[b].id != n.newPeers[a].id
    requires RunPossible(env, HandleDisconnect(env, n, n.newPeers[a].id, a), evs)
    requires forall m | m in HeardIn(evs) :: n.newPeers[a].id !in Names(m)
    ensures var x := n.newPeers[a].id; var lost := HandleDisconnect(env, n, x, a);
            Absent(I.RunEnd(env, lost, evs), x) && Silent(WrittenIn(env, lost, evs), x)
  {
    hide HandleDisconnect, RunPossible, I.RunEnd, WrittenIn, HeardIn, Names, Silent;
    PendingPurged(env, n, n.newPeers[a].id, a);
    RunLeavesOut(env, HandleDisconnect(env, n, n.newPeers[a].id, a), evs, n.newPeers[a].id);
  }

  // ------------------------------------------------------------ until then

  /** The request at this address is where it was, or was answered. */
  ghost predicate Held(n: Node, a: Address, entry: Pending, sent: seq<Sent>) {
    (a in n.newPeers && n.newPeers[a] == entry) || Announcements(sent, entry.id) > 0
  }

  lemma AnswerHolds(env: Env, n: Node, b: Address, port: Port, st: Stamps, a: Address)
    requires HasOwnMarker(env, n) && b in n.newPeers && a in n.newPeers
    ensures var o := AnswerJoin(env, n, b, port, st); Held(o.node, a, n.newPeers[a], o.sends)
  {
    hide LogMessage, MakeMarker, View.AddPeer, View.UpdateNeighbours, AcknowledgeJoin;
    AnswerPeers(env, n, b, port, st);
    var o := AnswerJoin(env, n, b, port, st);
    assert o.sends[0].message.JoinNotif? && o.sends[0].message.peerId == n.newPeers[b].id;
  }

  lemma CheckHolds(env: Env, n: Node, st: Stamps, a: Address)
    requires CanCheck(env, n) && a in n.newPeers
    ensures var o := CheckForNewPeers(env, n, st); Held(o.node, a, n.newPeers[a], o.sends)
  {
    hide AnswerJoin, HasOwnMarker, Announcements;
    forall b | FirstKnown(n.newPeers, b)
      ensures HasOwnMarker(env, n)
      ensures var o := AnswerJoin(env, n, b, n.newPeers[b].port, st); Held(o.node, a, n.newPeers[a], o.sends)
    {
      AnswerHolds(env, n, b, n.newPeers[b].port, st, a);
    }
  }

  lemma RequestHolds(env: Env, n: Node, b: Address, m: Msg, st: Stamps, a: Address)
    requires b in n.newPeers && n.newPeers[b].state == New && m.Join? && !n.log.Logged(m.stamp)
    requires CanReceive(env, n, Unsorted(b), m, st) && a in n.newPeers && a != b
    ensures var o := Receive(env, n, Unsorted(b), m, st); Held(o.node, a, n.newPeers[a], o.sends)
  {
    hide AnswerJoin, Asked, HasOwnMarker, MarkerFree, Receive, CanReceive, Found, Announcements;
    AskedInGroup(env, n, b, m, st);
    RequestComes(env, n, b, m, st);
    FoundIs(env, n, st.groupId);
    if n.joinToken {
      AnswerHolds(env, Asked(env, n, b, m, st.groupId), b, m.port, st, a);
    }
  }

  lemma NoticeHolds(env: Env, n: Node, y: Id, m: Msg, st: Stamps, a: Address)
    requires m.ReadyNotif? && CanReceive(env, n, Member(y), m, st) && a in n.newPeers
    ensures var o := Receive(env, n, Member(y), m, st); Held(o.node, a, n.newPeers[a], o.sends)
  {
    hide LogMessage, CheckForNewPeers, HasOwnMarker, Announcements;
    if !n.log.Logged(m.stamp) {
      var told := Relay(n, Member(y), m).node;
      LogIsIrrelevant(env, n, told.log, Member(y), m, st);
      CheckHolds(env, Seen(told, Member(y)), st, a);
      assert Relay(n, Member(y), m).sends == [];
      var o := CheckForNewPeers(env, Seen(told, Member(y)), st);
      assert [] + o.sends == o.sends;
    }
  }

  lemma TurnHolds(env: Env, ids: set<Id>, n: Node, t: Turn, a: Address)
    requires CanTurn(env, ids, n, t) && (t.Loses? ==> t.address != a)
    requires a in n.newPeers && n.newPeers[a].state != New
    ensures var o := AfterTurn(env, ids, n, t); Held(o.node, a, n.newPeers[a], o.sends)
  {
    hide LogMessage, CheckForNewPeers, HasOwnMarker, MarkerFree, Announcements, Receive, CanReceive,
      View.RemovePeer, View.UpdateNeighbours, Beside;
    match t
    case Loses(p, b) =>
    case Handles(ev) =>
      match ev
      case Requests(b, m, st) => RequestHolds(env, n, b, m, st, a);
      case Expires(y, st) => CheckHolds(env, Completed(n, y), st, a);
      case Notifies(y, m, st) => NoticeHolds(env, n, y, m, st, a);
      case Hears(link, m, st) =>
        if m.Data? || n.log.Logged(m.stamp) {
          HearingOnlyLogs(env, n, link, m, st);
        } else {
          NoticeHolds(env, n, link.id, m, st, a);
        }
      case _ =>
  }

  /** Whoever asked stays in the queue, over every run of what admission allows and
      of losses, until it is announced or its connection is lost. */
  lemma {:induction false} HeldUntilAnswered(env: Env, ids: set<Id>, n: Node, turns: seq<Turn>, end: Node,
                                             sent: seq<Sent>, a: Address)
    requires TurnsLead(env, ids, n, turns, end, sent) && forall t | t in turns && t.Loses? :: t.address != a
    requires a in n.newPeers && n.newPeers[a].state != New
    ensures Held(end, a, n.newPeers[a], sent)
    decreases |turns|
  {
    hide CanTurn, AfterTurn, Announcements;
    if turns != [] {
      var o := AfterTurn(env, ids, n, turns[0]);
      TurnHolds(env, ids, n, turns[0], a);
      var rest := sent[|o.sends|..];
      assert sent == o.sends + rest;
      AnnouncementsAdd(o.sends, rest, n.newPeers[a].id);
      if a in o.node.newPeers && o.node.newPeers[a] == n.newPeers[a] {
        assert forall t | t in turns[1..] :: t in turns;
        HeldUntilAnswered(env, ids, o.node, turns[1..], end, rest, a);
      }
    }
  }

  /** At a stranded entry point that means until its connection is lost. */
  lemma StrandedUntilLost(env: Env, ids: set<Id>, n: Node, turns: seq<Turn>, end: Node, sent: seq<Sent>, a: Address)
    requires Stranded(n) && TurnsLead(env, ids, n, turns, end, sent)
    requires a in n.newPeers && n.newPeers[a].state != New && forall t | t in turns && t.Loses? :: t.address != a
    ensures a in end.newPeers && end.newPeers[a] == n.newPeers[a] && n.newPeers[a].id in Waiting(end)
  {
    hide Stranded, TurnsLead, Announcements;
    HeldUntilAnswered(env, ids, n, turns, end, sent, a);
    StrandedForGood(env, ids, n, turns, end, sent);
  }

  // --------------------------------------------------- what the group is told

  /** A request as it was made: from where, by whom, and where to call back. */
  datatype Request = Request(address: Address, id: Id, pubKey: Bytes, port: Port)

  function InQueue(n: Node): set<Request> {
    set a | a in n.newPeers && n.newPeers[a].state != New ::
      Request(a, n.newPeers[a].id, n.newPeers[a].pubKey, n.newPeers[a].port)
  }

  /** The requests these transmissions tell the group of. */
  function Told(sends: seq<Sent>): set<Request> {
    set s | s in sends && s.message.JoinNotif? ::
      Request(s.message.ip, s.message.peerId, s.message.pubKey, s.message.port)
  }

  function MadeBy(t: Turn): set<Request> {
    if t.Handles? && t.event.Requests? && t.event.request.Join?
    then var m := t.event.request; {Request(t.event.address, m.id, m.pubKey, m.port)}
    else {}
  }

  function MadeIn(turns: seq<Turn>): set<Request> {
    if turns == [] then {} else MadeBy(turns[0]) + MadeIn(turns[1..])
  }

  lemma SameQueue(n: Node, m: Node)
    requires m.newPeers == n.newPeers
    ensures InQueue(m) == InQueue(n)
  {
  }

  lemma ToldTogether(a: seq<Sent>, b: seq<Sent>)
    ensures Told(a + b) == Told(a) + Told(b) && Told([]) == {}
  {
    assert forall s :: s in a + b <==> s in a || s in b;
  }

  lemma QueueWithout(n: Node, a: Address, after: Node)
    requires after.newPeers == n.newPeers - {a}
    ensures forall r :: r in InQueue(after) <==> r in InQueue(n) && r.address != a
  {
    forall r
      ensures r in InQueue(after) <==> r in InQueue(n) && r.address != a
    {
      assert r.address in after.newPeers <==> r.address in n.newPeers && r.address != a;
    }
  }

  lemma AnswerTells(env: Env, n: Node, a: Address, port: Port, st: Stamps)
    requires HasOwnMarker(env, n) && a in n.newPeers
    ensures var o := AnswerJoin(env, n, a, port, st);
            && Told(o.sends) == {Request(a, n.newPeers[a].id, n.newPeers[a].pubKey, port)} && Arms(n, o)
            && forall r :: r in InQueue(o.node) <==> r in InQueue(n) && r.address != a
  {
    hide LogMessage, MakeMarker, View.AddPeer, View.UpdateNeighbours, InQueue;
    AnswerPeers(env, n, a, port, st);
    var o := AnswerJoin(env, n, a, port, st);
    QueueWithout(n, a, o.node);
    assert o.sends == [o.sends[0], o.sends[1]] && o.sends[1].message.JoinAck?;
    assert o.sends[0] in o.sends;
  }

  /** Who is in these requests. */
  function Askers(requests: set<Request>): set<Id> {
    set r | r in requests :: r.id
  }

  /** A READY falls due for everyone the group is told of, and nobody else. */
  ghost predicate Arms(n: Node, o: Outcome) {
    o.node.readyTimers == n.readyTimers + Askers(Told(o.sends))
  }

  /** Nothing is made up and nothing lost between n and o but what was asked. */
  ghost predicate Accounted(n: Node, o: Outcome, made: set<Request>) {
    Told(o.sends) + InQueue(o.node) == InQueue(n) + made
  }

  lemma CheckTells(env: Env, n: Node, st: Stamps)
    requires CanCheck(env, n)
    ensures Accounted(n, CheckForNewPeers(env, n, st), {}) && Arms(n, CheckForNewPeers(env, n, st))
  {
    hide AnswerJoin, HasOwnMarker, InQueue, Told;
    forall a | FirstKnown(n.newPeers, a)
      ensures HasOwnMarker(env, n)
      ensures var o := AnswerJoin(env, n, a, n.newPeers[a].port, st); Accounted(n, o, {}) && Arms(n, o)
    {
      AnswerTells(env, n, a, n.newPeers[a].port, st);
      OnlyAt(n, a);
    }
    SameQueue(n, n.(joinToken := true));
    ToldTogether([], []);
  }

  lemma OnlyAt(n: Node, a: Address)
    requires a in n.newPeers
    ensures forall r | r in InQueue(n) && r.address == a ::
              r == Request(a, n.newPeers[a].id, n.newPeers[a].pubKey, n.newPeers[a].port)
    ensures n.newPeers[a].state != New ==>
              Request(a, n.newPeers[a].id, n.newPeers[a].pubKey, n.newPeers[a].port) in InQueue(n)
    ensures n.newPeers[a].state == New ==> forall r | r in InQueue(n) :: r.address != a
  {
  }

  lemma NamedQueues(n: Node, a: Address, m: Msg, port: Port, log: Log)
    requires a in n.newPeers && n.newPeers[a].state == New && m.Join?
    ensures InQueue(Named(n, a, m, port).(log := log)) == InQueue(n) + {Request(a, m.id, m.pubKey, port)}
  {
    var w := Named(n, a, m, port).(log := log);
    forall r
      ensures r in InQueue(w) <==> r in InQueue(n) + {Request(a, m.id, m.pubKey, port)}
    {
      if r in InQueue(n) {
        assert r.address in w.newPeers && w.newPeers[r.address] == n.newPeers[r.address];
      }
      assert a in w.newPeers;
    }
  }

  lemma RequestTells(env: Env, n: Node, b: Address, m: Msg, st: Stamps)
    requires b in n.newPeers && n.newPeers[b].state == New && m.Join? && !n.log.Logged(m.stamp)
    requires CanReceive(env, n, Unsorted(b), m, st)
    ensures var o := Receive(env, n, Unsorted(b), m, st);
            Accounted(n, o, {Request(b, m.id, m.pubKey, m.port)}) && Arms(n, o)
  {
    hide AnswerJoin, Asked, HasOwnMarker, MarkerFree, Receive, CanReceive, Found, InQueue, Told;
    AskedInGroup(env, n, b, m, st);
    RequestComes(env, n, b, m, st);
    FoundIs(env, n, st.groupId);
    SameQueue(n, Found(env, n, st.groupId));
    OnlyAt(n, b);
    ToldTogether([], []);
    var up := if n.state == Connected then n else Found(env, n, st.groupId);
    var g := Asked(env, n, b, m, st.groupId);
    NamedQueues(up, b, m, n.newPeers[b].port, g.log);
    NamedQueues(up, b, m, m.port, g.log);
    if n.joinToken {
      AnswerTells(env, g, b, m.port, st);
    }
  }

  /** From end to end: a node that calls an entry point is joining, and what it
      writes makes it, once read there, known to the entry point's group, or to its
      queue while the token is taken: by its own id and key, the port it listens
      on, and the address it called from. */
  lemma CallArrives(env: Env, c: Node, entry: Address, port: Port, stamp: Bytes, n: Node, a: Address, before: Port,
                    st: Stamps)
    requires Sized(c.id, c.pubKey) && |stamp| == MSG_STAMP_LENGTH && !n.log.Logged(stamp)
    requires if n.state == Connected then HasOwnMarker(env, n) else MarkerFree(env, n, st.groupId)
    ensures var called, e := CallEntryPoint(c, entry, port, stamp), Accept(n, a);
            var w := called.0.log.entries[stamp].message;
            && (!c.log.Logged(stamp) ==> w == Serialize(called.1))
            && called.0 == c.(state := Joining, newPeers := Accept(c, entry).newPeers, log := called.0.log)
            && Parse(Serialize(called.1), before).Success?
            && CanReceive(env, e, Unsorted(a), Parse(Serialize(called.1), before).message, st)
            && var o := ReceiveBytes(env, e, Unsorted(a), Serialize(called.1), before, st);
               && Accounted(e, o, {Request(a, c.id, c.pubKey, port)})
               && Told(o.sends) == if n.joinToken then {Request(a, c.id, c.pubKey, port)} else {}
  {
    hide Serialize, Parse, Receive, CanReceive, HasOwnMarker, MarkerFree, InQueue, Told, Accounted, AnswerJoin, Asked;
    var m, e := Join(stamp, c.id, c.pubKey, port), Accept(n, a);
    RoundTrip(m, before);
    AcceptKeepsMarker(env, n, a, st.groupId);
    RequestComes(env, e, a, m, st);
    RequestTells(env, e, a, m, st);
    ToldTogether([], []);
    if n.joinToken {
      AnswerTells(env, Asked(env, e, a, m, st.groupId), a, port, st);
    }
  }

  lemma AcceptKeepsMarker(env: Env, n: Node, a: Address, groupId: Bytes)
    ensures HasOwnMarker(env, Accept(n, a)) <==> HasOwnMarker(env, n)
    ensures MarkerFree(env, Accept(n, a), groupId) <==> MarkerFree(env, n, groupId)
  {
  }

  lemma NoticeTells(env: Env, n: Node, y: Id, m: Msg, st: Stamps)
    requires m.ReadyNotif? && CanReceive(env, n, Member(y), m, st)
    ensures var o := Receive(env, n, Member(y), m, st); Accounted(n, o, {}) && Arms(n, o)
  {
    hide LogMessage, CheckForNewPeers, HasOwnMarker, InQueue, Told;
    if n.log.Logged(m.stamp) {
      SameQueue(n, Receive(env, n, Member(y), m, st).node);
      ToldTogether([], []);
    } else {
      var told := Relay(n, Member(y), m).node;
      LogIsIrrelevant(env, n, told.log, Member(y), m, st);
      CheckTells(env, Seen(told, Member(y)), st);
      SameQueue(n, Seen(told, Member(y)));
      assert Relay(n, Member(y), m).sends == [];
      var o := CheckForNewPeers(env, Seen(told, Member(y)), st);
      assert [] + o.sends == o.sends;
    }
  }

  lemma SilentTells(n: Node, o: Outcome)
    requires o.node.newPeers == n.newPeers && forall s | s in o.sends :: !s.message.JoinNotif?
    ensures Accounted(n, o, {}) && (o.node.readyTimers == n.readyTimers ==> Arms(n, o))
  {
  }

  lemma EventTells(env: Env, ids: set<Id>, n: Node, ev: Admissions.Event)
    requires Admissions.Allowed(env, ids, n, ev) && CanHandle(env, n, ev)
    ensures var o := Admissions.After(env, n, ev);
            Accounted(n, o, MadeBy(Handles(ev))) && (ev.SendsReady? || Arms(n, o))
  {
    hide LogMessage, CheckForNewPeers, HasOwnMarker, MarkerFree, Receive, CanReceive, Beside, Accounted;
    match ev
    case Requests(b, m, st) => RequestTells(env, n, b, m, st);
    case Expires(y, st) =>
      CheckTells(env, Completed(n, y), st);
      SameAccount(n, Completed(n, y), CheckForNewPeers(env, Completed(n, y), st));
    case Notifies(y, m, st) => NoticeTells(env, n, y, m, st);
    case Connects(a) => ConnectTells(n, a);
    case SendsReady(y, stamp) => SilentTells(n, SendReady(n, y, stamp));
    case Hears(link, m, st) =>
      if m.Data? || n.log.Logged(m.stamp) {
        HearingOnlyLogs(env, n, link, m, st);
        SilentTells(n, Receive(env, n, link, m, st));
      } else {
        NoticeTells(env, n, link.id, m, st);
      }
  }

  lemma SameAccount(n: Node, c: Node, o: Outcome)
    requires Accounted(c, o, {}) && c.newPeers == n.newPeers && c.readyTimers == n.readyTimers && Arms(c, o)
    ensures Accounted(n, o, {}) && Arms(n, o)
  {
    hide InQueue, Told;
    SameQueue(n, c);
  }

  lemma ConnectTells(n: Node, a: Address)
    requires a !in n.newPeers
    ensures Accounted(n, Outcome(Accept(n, a), []), {}) && Arms(n, Outcome(Accept(n, a), []))
  {
    var m := Accept(n, a);
    forall r
      ensures r in InQueue(m) <==> r in InQueue(n)
    {
      if r in InQueue(n) {
        assert r.address in m.newPeers && m.newPeers[r.address] == n.newPeers[r.address];
      }
    }
  }

  lemma LossTells(env: Env, n: Node, p: Id, a: Address)
    requires p in n.peers ==> n.group.Some?
    ensures InQueue(HandleDisconnect(env, n, p, a)) <= InQueue(n)
  {
    hide View.RemovePeer, View.UpdateNeighbours;
    var after := HandleDisconnect(env, n, p, a);
    forall r | r in InQueue(after)
      ensures r in InQueue(n)
    {
      assert r.address in n.newPeers && n.newPeers[r.address] == after.newPeers[r.address];
    }
  }

  /** Requests are conserved: over every run of what admission allows and of
      losses, the group is told of requests only as they were made, with the
      address, id, key and port of the one who asked; and without losses every
      request was told or is in the queue, as it was made. */
  lemma {:induction false} RequestsConserved(env: Env, ids: set<Id>, n: Node, turns: seq<Turn>, end: Node,
                                             sent: seq<Sent>)
    requires TurnsLead(env, ids, n, turns, end, sent)
    ensures Told(sent) + InQueue(end) <= InQueue(n) + MadeIn(turns)
    ensures (forall t | t in turns :: t.Handles?) ==> Told(sent) + InQueue(end) == InQueue(n) + MadeIn(turns)
    decreases |turns|
  {
    hide CanTurn, AfterTurn, Told, InQueue, MadeBy;
    ToldTogether([], []);
    if turns != [] {
      var o := AfterTurn(env, ids, n, turns[0]);
      TurnTells(env, ids, n, turns[0]);
      var rest := sent[|o.sends|..];
      assert sent == o.sends + rest;
      ToldTogether(o.sends, rest);
      RequestsConserved(env, ids, o.node, turns[1..], end, rest);
      assert forall t | t in turns[1..] :: t in turns;
    }
  }

  lemma TurnTells(env: Env, ids: set<Id>, n: Node, t: Turn)
    requires CanTurn(env, ids, n, t)
    ensures var o := AfterTurn(env, ids, n, t);
            && Told(o.sends) + InQueue(o.node) <= InQueue(n) + MadeBy(t)
            && (t.Handles? ==> Told(o.sends) + InQueue(o.node) == InQueue(n) + MadeBy(t))
  {
    hide Admissions.Allowed, CanHandle, Admissions.After, HandleDisconnect, Told, InQueue, MadeBy;
    ToldTogether([], []);
    match t
    case Handles(ev) => EventTells(env, ids, n, ev);
    case Loses(p, a) => LossTells(env, n, p, a);
  }

  // ------------------------------------------------------------ what is due

  function ReadiedBy(t: Turn): set<Id> {
    if t.Handles? && t.event.SendsReady? then {t.event.peer} else {}
  }

  function ReadiedIn(turns: seq<Turn>): set<Id> {
    if turns == [] then {} else ReadiedBy(turns[0]) + ReadiedIn(turns[1..])
  }

  lemma AskersTogether(a: set<Request>, b: set<Request>)
    ensures Askers(a + b) == Askers(a) + Askers(b) && Askers({}) == {}
  {
  }

  lemma TurnArms(env: Env, ids: set<Id>, n: Node, t: Turn)
    requires CanTurn(env, ids, n, t)
    ensures var o := AfterTurn(env, ids, n, t);
            && o.node.readyTimers == n.readyTimers + Askers(Told(o.sends)) - ReadiedBy(t)
            && forall x | x in ReadiedBy(t) :: exists s :: s in o.sends && s.message.Ready? && s.to == {x}
  {
    hide Admissions.Allowed, CanHandle, HandleDisconnect, Told, InQueue, LogMessage, CheckForNewPeers, Receive,
      CanReceive;
    ToldTogether([], []);
    AskersTogether({}, {});
    match t
    case Handles(ev) =>
      if ev.SendsReady? {
        var o := SendReady(n, ev.peer, ev.stamp);
        assert o.sends[0] in o.sends && o.sends[0].message.Ready? && o.sends[0].to == {ev.peer};
        NothingTold(o.sends);
      } else {
        EventTells(env, ids, n, ev);
      }
    case Loses(p, a) => LossKeepsDue(env, n, p, a);
  }

  lemma NothingTold(sends: seq<Sent>)
    requires forall s | s in sends :: !s.message.JoinNotif?
    ensures Told(sends) == {}
  {
  }

  lemma LossKeepsDue(env: Env, n: Node, p: Id, a: Address)
    requires p in n.peers ==> n.group.Some?
    ensures HandleDisconnect(env, n, p, a).readyTimers == n.readyTimers
  {
    hide View.RemovePeer, View.UpdateNeighbours;
  }

  /** READY is due to exactly those the group was told of, over every such run,
      and stays due until it is sent. */
  lemma {:induction false} ReadyStaysDue(env: Env, ids: set<Id>, n: Node, turns: seq<Turn>, end: Node, sent: seq<Sent>)
    requires TurnsLead(env, ids, n, turns, end, sent)
    ensures n.readyTimers + Askers(Told(sent)) - ReadiedIn(turns) <= end.readyTimers
            <= n.readyTimers + Askers(Told(sent))
    decreases |turns|
  {
    hide CanTurn, AfterTurn, Told, Askers, ReadiedBy;
    ToldTogether([], []);
    AskersTogether({}, {});
    if turns != [] {
      var o := AfterTurn(env, ids, n, turns[0]);
      TurnArms(env, ids, n, turns[0]);
      var rest := sent[|o.sends|..];
      assert sent == o.sends + rest;
      ToldTogether(o.sends, rest);
      AskersTogether(Told(o.sends), Told(rest));
      ReadyStaysDue(env, ids, o.node, turns[1..], end, rest);
    }
  }

  // ------------------------------------------------------------- who is ready

  /** Whoever says it is ready counts as connected from then on, filed or not; a
      pending peer even when it is answered in the same breath. */
  lemma NoticeConnects(env: Env, n: Node, link: Link, m: Msg, st: Stamps)
    requires CanReceive(env, n, link, m, st) && m.ReadyNotif? && !n.log.Logged(m.stamp)
    requires link.Member? ==> forall a | a in n.newPeers :: n.newPeers[a].id != link.id
    ensures var after := Receive(env, n, link, m, st).node;
            match link
            case Member(id) => id in after.peers && after.peers[id] == Connected
            case Unsorted(a) =>
              if a in after.newPeers then after.newPeers[a] == n.newPeers[a].(state := Connected)
              else n.newPeers[a].id in after.peers && after.peers[n.newPeers[a].id] == Connected
  {
    hide LogMessage, CheckForNewPeers, HasOwnMarker;
    var told := Relay(n, link, m).node;
    LogIsIrrelevant(env, n, told.log, link, m, st);
    CheckAnswersOne(env, Seen(told, link), st);
  }

  lemma CheckAnswersOne(env: Env, n: Node, st: Stamps)
    requires CanCheck(env, n)
    ensures var after := CheckForNewPeers(env, n, st).node;
            || (after.peers == n.peers && after.newPeers == n.newPeers)
            || exists a :: a in n.newPeers && after.newPeers == n.newPeers - {a}
                           && after.peers == n.peers[n.newPeers[a].id := n.newPeers[a].state]
  {
    hide AnswerJoin, HasOwnMarker;
    forall a | FirstKnown(n.newPeers, a)
      ensures HasOwnMarker(env, n)
      ensures var after := AnswerJoin(env, n, a, n.newPeers[a].port, st).node;
              && after.newPeers == n.newPeers - {a} && after.peers == n.peers[n.newPeers[a].id := n.newPeers[a].state]
    {
      AnswerPeers(env, n, a, n.newPeers[a].port, st);
    }
  }
}
