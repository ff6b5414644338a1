/** The entry point across many joins: one newcomer at a time, the others wait
    under their addresses. */
module Admissions {
  import opened Bytes
  import opened Rings
  import opened Groups
  import opened Messages
  import opened Logs
  import opened Nodes
  import opened Ledgers
  import opened Invariants
  import opened Joins

  /** Answered, and not relied on yet. */
  function Underway(n: Node): set<Id> {
    set x | x in n.peers && n.peers[x] == Joining
  }

  /** Those who asked and were not answered yet. */
  function Waiting(n: Node): set<Id> {
    set a | a in n.newPeers && n.newPeers[a].state != New :: n.newPeers[a].id
  }

  /** Each pending request is somebody's only one. */
  ghost predicate Orderly(n: Node) {
    && (forall a | a in n.newPeers && n.newPeers[a].state != New ::
      n.newPeers[a].state == Joining && n.newPeers[a].id !in n.peers)
    && (forall a, b | a in n.newPeers && b in n.newPeers && n.newPeers[a].state != New && n.newPeers[b].state != New
                      && n.newPeers[a].id == n.newPeers[b].id :: a == b)
  }

  /** The token is free exactly when nobody is underway, and then nobody waits. */
  ghost predicate TokenRight(n: Node) {
    && (forall x, y | x in Underway(n) && y in Underway(n) :: x == y)
    && (n.joinToken <==> Underway(n) == {}) && (n.joinToken ==> Waiting(n) == {})
  }

  /** Whoever is underway will be relied on: by a timer if it is no neighbour. */
  ghost predicate TimersRight(n: Node) {
    && n.joinTimers <= Underway(n)
    && forall x | x in Underway(n) :: x in n.joinTimers <==> !Beside(n, x)
  }

  ghost predicate AdmissionInv(env: Env, ids: set<Id>, n: Node) {
    && Coherent(env, n) && Placed(env, ids, n) && (n.state == Connected || n.peers == map[])
    && Orderly(n) && TokenRight(n) && TimersRight(n)
  }

  datatype Event =
    | Connects(address: Address)
    | Requests(address: Address, request: Msg, stamps: Stamps)
    | Expires(peer: Id, stamps: Stamps)
    | Notifies(peer: Id, notice: Msg, stamps: Stamps)
    | SendsReady(peer: Id, stamp: Bytes)
    | Hears(link: Link, message: Msg, stamps: Stamps)

  /** Connections come from distinct addresses, each newcomer asks once, while a
      newcomer is underway only that one says it is ready and only as a
      neighbour, and everything else the entry point hears is data, or heard
      before. The first request may find it without a group. */
  ghost predicate Allowed(env: Env, ids: set<Id>, n: Node, ev: Event) {
    match ev
    case Connects(a) => a !in n.newPeers
    case Requests(a, m, st) =>
      && a in n.newPeers && n.newPeers[a].state == New && m.Join? && !n.log.Logged(m.stamp)
      && Stranger(ids, n, m.id) && m.id !in n.peers && m.id !in Waiting(n)
      && (n.state != Connected ==> MarkerFree(env, n, st.groupId))
    case Expires(x, st) => x in n.joinTimers
    case Notifies(x, m, st) => x in Underway(n) && Beside(n, x) && m.ReadyNotif? && !n.log.Logged(m.stamp)
    case SendsReady(x, stamp) => true
    case Hears(link, m, st) =>
      CanReceive(env, n, link, m, st) && (m.Data? || n.log.Logged(m.stamp) || IdleNotice(n, link, m))
  }

  /** A READY_NOTIF from a known peer while nobody is underway. */
  predicate IdleNotice(n: Node, link: Link, m: Msg) {
    m.ReadyNotif? && n.joinToken && link.Member? && link.id in n.peers && n.peers[link.id] != New
  }

  /** Nothing of what is allowed fails. */
  ghost predicate CanHandle(env: Env, n: Node, ev: Event) {
    match ev
    case Requests(a, m, st) => CanReceive(env, n, Unsorted(a), m, st)
    case Expires(x, st) => CanCheck(env, Completed(n, x))
    case Notifies(x, m, st) => CanReceive(env, n, Member(x), m, st)
    case Hears(link, m, st) => CanReceive(env, n, link, m, st)
    case _ => true
  }

  function Completed(n: Node, x: Id): Node {
    n.(peers := if x in n.peers then n.peers[x := Connected] else n.peers, joinTimers := n.joinTimers - {x})
  }

  ghost function After(env: Env, n: Node, ev: Event): Outcome
    requires CanHandle(env, n, ev)
  {
    match ev
    case Connects(a) => Outcome(Accept(n, a), [])
    case Requests(a, m, st) => Receive(env, n, Unsorted(a), m, st)
    case Expires(x, st) => CompleteJoin(env, n, x, st)
    case Notifies(x, m, st) => Receive(env, n, Member(x), m, st)
    case SendsReady(x, stamp) => SendReady(n, x, stamp)
    case Hears(link, m, st) => Receive(env, n, link, m, st)
  }

  predicate Completes(ev: Event) { ev.Expires? || ev.Notifies? }

  function Requested(ev: Event): set<Id> {
    if ev.Requests? && ev.request.Join? then {ev.request.id} else {}
  }

  /** How many of these transmissions tell the group of x. */
  function Announcements(sends: seq<Sent>, x: Id): nat {
    if sends == [] then 0
    else Once(sends[0].message.JoinNotif? && sends[0].message.peerId == x) + Announcements(sends[1..], x)
  }

  /** One step of admission: nobody who asked is lost, whoever is answered is
      announced once, and every answer takes the token a completion gave back. */
  ghost predicate Fair(n: Node, o: Outcome, ev: Event) {
    var m := o.node;
    && n.peers.Keys <= m.peers.Keys
    && m.peers.Keys + Waiting(m) == n.peers.Keys + Waiting(n) + Requested(ev)
    && m.peers.Keys - n.peers.Keys <= Waiting(n) + Requested(ev)
    && (forall x :: Announcements(o.sends, x) == Once(x in m.peers && x !in n.peers))
    && |m.peers.Keys - n.peers.Keys| + Once(m.joinToken) == Once(n.joinToken) + Once(Completes(ev))
  }

  // --------------------------------------------------------- answering

  /** What answering the peer at this address changes. */
  lemma AnswerEffect(env: Env, n: Node, a: Address, port: Port, st: Stamps)
    requires HasOwnMarker(env, n) && a in n.newPeers && n.newPeers[a].state == Joining
    ensures var o := AnswerJoin(env, n, a, port, st); var x := n.newPeers[a].id;
            && !o.node.joinToken && o.node.newPeers == n.newPeers - {a} && o.node.peers == n.peers[x := Joining]
            && o.node.state == n.state && o.node.group.Some?
            && o.node.joinTimers == n.joinTimers + (if Beside(o.node, x) then {} else {x})
            && |o.sends| == 2 && o.sends[0].message.JoinNotif? && o.sends[0].message.peerId == x
            && o.sends[1].message.JoinAck?
  {
    hide View.AddPeer, View.UpdateNeighbours, Serialize, MakeMarker, LogMessage, AcknowledgeJoin;
    var gid, p := n.group.value.id, n.newPeers[a];
    var notif := JoinNotif(st.first, MakeMarker(env.h, gid, gid), false, gid, p.id, p.pubKey, a, port);
    var told := Broadcast(n.(joinToken := false), notif).node;
    AcknowledgeEffect(env, told.(newPeers := told.newPeers - {a}), p.id, st.second);
    AcknowledgeRest(env, told.(newPeers := told.newPeers - {a}), p.id, st.second);
  }

  lemma AcknowledgeRest(env: Env, n: Node, x: Id, stamp: Bytes)
    requires n.group.Some?
    ensures var o := AcknowledgeJoin(env, n, x, Joining, stamp).node;
            o.peers == n.peers[x := Joining] && o.newPeers == n.newPeers && o.state == n.state
  {
    hide View.AddPeer, View.UpdateNeighbours, Serialize, LogMessage;
  }

  lemma OneAnnouncement(sends: seq<Sent>, x: Id, y: Id)
    requires |sends| == 2 && sends[0].message.JoinNotif? && sends[0].message.peerId == x && sends[1].message.JoinAck?
    ensures Announcements(sends, y) == Once(x == y)
  {
    var rest := sends[1..];
    assert rest[0] == sends[1] && rest[1..] == [];
    assert Announcements(rest, y) == 0;
  }

  /** Nobody underway, and the token about to be given to whoever waits: the
      state check_for_new_peers starts from. */
  ghost predicate Idle(env: Env, ids: set<Id>, n: Node) {
    && Coherent(env, n) && Placed(env, ids, n) && n.state == Connected && Orderly(n)
    && Underway(n) == {} && n.joinTimers == {}
  }

  /** Answering one of those who wait, with nobody underway. */
  lemma Answering(env: Env, ids: set<Id>, n: Node, a: Address, port: Port, st: Stamps)
    requires Idle(env, ids, n) && HasOwnMarker(env, n) && a in n.newPeers && n.newPeers[a].state == Joining
    ensures var o := AnswerJoin(env, n, a, port, st); var x := n.newPeers[a].id;
            && AdmissionInv(env, ids, o.node) && !o.node.joinToken && Underway(o.node) == {x}
            && o.node.peers.Keys == n.peers.Keys + {x} && Waiting(o.node) == Waiting(n) - {x} && x !in n.peers
            && x in Waiting(n) && forall y :: Announcements(o.sends, y) == Once(y == x)
  {
    hide Coherent, Placed, HasOwnMarker, AnswerJoin, Beside, Announcements;
    AnswerEffect(env, n, a, port, st);
    AnswerKeepsPlaced(env, ids, n, a, port, st);
    var o, x := AnswerJoin(env, n, a, port, st), n.newPeers[a].id;
    WaitingLess(n, a, o.node);
    assert Underway(o.node) == {x};
    assert Orderly(o.node);
    assert TokenRight(o.node);
    assert TimersRight(o.node);
    forall y
      ensures Announcements(o.sends, y) == Once(y == x)
    {
      OneAnnouncement(o.sends, x, y);
    }
  }

  lemma WaitingLess(n: Node, a: Address, m: Node)
    requires Orderly(n) && a in n.newPeers && n.newPeers[a].state != New && m.newPeers == n.newPeers - {a}
    ensures Waiting(m) == Waiting(n) - {n.newPeers[a].id} && n.newPeers[a].id in Waiting(n)
  {
    forall x
      ensures x in Waiting(m) <==> x in Waiting(n) && x != n.newPeers[a].id
    {
      if x in Waiting(n) && x != n.newPeers[a].id {
        var b :| b in n.newPeers && n.newPeers[b].state != New && n.newPeers[b].id == x;
        assert b in m.newPeers;
      }
    }
  }

  // ------------------------------------------------------- completions

  lemma WaitingIsKnown(n: Node)
    ensures Waiting(n) == {} <==> NobodyKnown(n.newPeers)
  {
    if a :| a in n.newPeers && n.newPeers[a].state != New {
      assert n.newPeers[a].id in Waiting(n);
    }
  }

  /** The keys and counts Fair is about, from n to the outcome o. */
  ghost predicate Answers(n: Node, o: Outcome) {
    var m := o.node;
    && n.peers.Keys <= m.peers.Keys && m.peers.Keys + Waiting(m) == n.peers.Keys + Waiting(n)
    && m.peers.Keys - n.peers.Keys <= Waiting(n)
    && (forall x :: Announcements(o.sends, x) == Once(x in m.peers && x !in n.peers))
    && |m.peers.Keys - n.peers.Keys| + Once(m.joinToken) == 1
  }

  /** check_for_new_peers with nobody underway: the first of those who wait is
      answered, or the token is free. */
  lemma Checked(env: Env, ids: set<Id>, n: Node, st: Stamps)
    requires Idle(env, ids, n)
    ensures CanCheck(env, n)
    ensures var o := CheckForNewPeers(env, n, st); AdmissionInv(env, ids, o.node) && Answers(n, o)
    ensures Waiting(n) != {} ==>
      exists a :: FirstKnown(n.newPeers, a) && Underway(CheckForNewPeers(env, n, st).node) == {n.newPeers[a].id}
  {
    hide Idle, Coherent, Tidy, AnswerJoin, AdmissionInv, Announcements, Answers;
    SomebodyFirst(n.newPeers);
    WaitingIsKnown(n);
    IdleIs(env, ids, n);
    if exists a :: FirstKnown(n.newPeers, a) {
      forall a | FirstKnown(n.newPeers, a)
        ensures var o := AnswerJoin(env, n, a, n.newPeers[a].port, st); AdmissionInv(env, ids, o.node) && Answers(n, o)
        ensures Underway(AnswerJoin(env, n, a, n.newPeers[a].port, st).node) == {n.newPeers[a].id}
      {
        AnsweringAnswers(env, ids, n, a, st);
      }
    } else {
      FreeToken(env, ids, n);
    }
  }

  lemma IdleIs(env: Env, ids: set<Id>, n: Node)
    requires Idle(env, ids, n)
    ensures HasOwnMarker(env, n) && Orderly(n)
  {
    hide Coherent, Placed, HasOwnMarker;
    InGroup(env, n);
  }

  lemma AnsweringAnswers(env: Env, ids: set<Id>, n: Node, a: Address, st: Stamps)
    requires Idle(env, ids, n) && HasOwnMarker(env, n) && FirstKnown(n.newPeers, a)
    ensures var o := AnswerJoin(env, n, a, n.newPeers[a].port, st); AdmissionInv(env, ids, o.node) && Answers(n, o)
    ensures Underway(AnswerJoin(env, n, a, n.newPeers[a].port, st).node) == {n.newPeers[a].id}
  {
    hide Coherent, Placed, Orderly, AnswerJoin, AdmissionInv, Answers, HasOwnMarker, Waiting, Underway, Announcements;
    assert n.newPeers[a].state == Joining by { KnownIsJoining(n, a); }
    Answering(env, ids, n, a, n.newPeers[a].port, st);
    OneMoreAnswers(n, AnswerJoin(env, n, a, n.newPeers[a].port, st), n.newPeers[a].id);
  }

  lemma KnownIsJoining(n: Node, a: Address)
    requires Orderly(n) && a in n.newPeers && n.newPeers[a].state != New
    ensures n.newPeers[a].state == Joining
  {
  }

  lemma OneMoreAnswers(n: Node, o: Outcome, x: Id)
    requires !o.node.joinToken && o.node.peers.Keys == n.peers.Keys + {x} && x !in n.peers
    requires Waiting(o.node) == Waiting(n) - {x} && x in Waiting(n)
    requires forall y :: Announcements(o.sends, y) == Once(y == x)
    ensures Answers(n, o)
  {
    hide Waiting, Announcements;
    OneMoves(n.peers.Keys, Waiting(n), x);
  }

  lemma OneMoves(p: set<Id>, w: set<Id>, x: Id)
    requires x !in p && x in w
    ensures (p + {x}) - p == {x} && (p + {x}) + (w - {x}) == p + w && |(p + {x}) - p| == 1
  {
    assert (p + {x}) - p == {x};
  }

  lemma InGroup(env: Env, n: Node)
    requires Coherent(env, n) && n.state == Connected
    ensures HasOwnMarker(env, n) && n.id !in n.peers
  {
    hide RingsHold, CacheExact, MakeMarker;
  }

  lemma FreeToken(env: Env, ids: set<Id>, n: Node)
    requires Idle(env, ids, n) && Waiting(n) == {}
    ensures AdmissionInv(env, ids, n.(joinToken := true)) && Answers(n, Outcome(n.(joinToken := true), []))
  {
    hide Coherent, KeysDistinct;
    var m := n.(joinToken := true);
    TokenKeepsCoherent(env, n);
    assert m.peers.Keys - n.peers.Keys == {};
  }

  lemma TokenKeepsCoherent(env: Env, n: Node)
    requires Coherent(env, n)
    ensures Coherent(env, n.(joinToken := true))
  {
    hide RingsHold, CacheExact, MakeMarker;
    assert OnRings(n.(joinToken := true)) == OnRings(n);
  }

  /** x, the only one underway, may be relied on. */
  lemma CompletedIsIdle(env: Env, ids: set<Id>, n: Node, x: Id, log: Log)
    requires AdmissionInv(env, ids, n) && x in Underway(n)
    ensures var c := Completed(n, x).(log := log);
            && Idle(env, ids, c) && c.peers.Keys == n.peers.Keys && Waiting(c) == Waiting(n) && !n.joinToken
  {
    hide RingsHold, CacheExact, MakeMarker, KeysDistinct;
    var c := Completed(n, x).(log := log);
    assert c.peers.Keys == n.peers.Keys;
    assert OnRings(c) == OnRings(n);
    assert forall y | y in Underway(c) :: y != x && y in Underway(n);
    assert Underway(c) == {};
  }

  // ------------------------------------------------------- step by step

  ghost predicate Keeps(env: Env, ids: set<Id>, n: Node, ev: Event) {
    CanHandle(env, n, ev) && AdmissionInv(env, ids, After(env, n, ev).node) && Fair(n, After(env, n, ev), ev)
  }

  lemma AnswersAreFair(n: Node, c: Node, o: Outcome, ev: Event)
    requires c.peers.Keys == n.peers.Keys && Waiting(c) == Waiting(n) && !n.joinToken && Completes(ev) && Answers(c, o)
    ensures Fair(n, o, ev)
  {
    hide Waiting, Announcements;
    forall x
      ensures x in c.peers <==> x in n.peers
    {
      assert x in c.peers.Keys <==> x in n.peers.Keys;
    }
  }

  lemma ExpiresKeeps(env: Env, ids: set<Id>, n: Node, x: Id, st: Stamps)
    requires AdmissionInv(env, ids, n) && x in n.joinTimers
    ensures Keeps(env, ids, n, Expires(x, st))
  {
    hide AdmissionInv, Idle, Fair, Answers, CheckForNewPeers, CanCheck, Waiting;
    assert x in Underway(n) by { TimerIsUnderway(env, ids, n, x); }
    CompletedIsIdle(env, ids, n, x, n.log);
    Checked(env, ids, Completed(n, x), st);
    AnswersAreFair(n, Completed(n, x), CheckForNewPeers(env, Completed(n, x), st), Expires(x, st));
  }

  lemma TimerIsUnderway(env: Env, ids: set<Id>, n: Node, x: Id)
    requires AdmissionInv(env, ids, n) && x in n.joinTimers
    ensures x in Underway(n)
  {
  }

  lemma NotifiesKeeps(env: Env, ids: set<Id>, n: Node, x: Id, m: Msg, st: Stamps)
    requires AdmissionInv(env, ids, n) && Allowed(env, ids, n, Notifies(x, m, st))
    ensures Keeps(env, ids, n, Notifies(x, m, st))
  {
    hide AdmissionInv, Idle, Fair, Answers, CheckForNewPeers, CanCheck, Waiting, LogMessage, Beside;
    NotTimed(env, ids, n, x);
    var log := LogMessage(n, m, Some(x)).log;
    CompletedIsIdle(env, ids, n, x, log);
    CompletedIsIdle(env, ids, n, x, n.log);
    var c := Completed(n, x).(log := log);
    assert Seen(n.(log := log), Member(x)) == c && Seen(n, Member(x)) == Completed(n, x);
    Checked(env, ids, c, st);
    Checked(env, ids, Completed(n, x), st);
    var o := CheckForNewPeers(env, c, st);
    assert [] + o.sends == o.sends;
    AnswersAreFair(n, c, o, Notifies(x, m, st));
  }

  lemma NotTimed(env: Env, ids: set<Id>, n: Node, x: Id)
    requires AdmissionInv(env, ids, n) && x in Underway(n) && Beside(n, x)
    ensures n.joinTimers - {x} == n.joinTimers
  {
  }

  /** Nothing admission depends on changes. */
  lemma LogKeepsAdmission(env: Env, ids: set<Id>, n: Node, log: Log, readyTimers: set<Id>)
    requires AdmissionInv(env, ids, n)
    ensures AdmissionInv(env, ids, n.(log := log, readyTimers := readyTimers))
  {
    hide RingsHold, CacheExact, MakeMarker, KeysDistinct;
    var m := n.(log := log, readyTimers := readyTimers);
    assert OnRings(m) == OnRings(n);
    assert Underway(m) == Underway(n) && Waiting(m) == Waiting(n);
  }

  lemma NothingAnswered(n: Node, o: Outcome, ev: Event)
    requires o.node.peers == n.peers && o.node.joinToken == n.joinToken && !Completes(ev)
    requires Waiting(o.node) == Waiting(n) + Requested(ev) && forall s | s in o.sends :: !s.message.JoinNotif?
    ensures Fair(n, o, ev)
  {
    hide Waiting, Requested, Announcements;
    assert o.node.peers.Keys - n.peers.Keys == {};
    forall x
      ensures Announcements(o.sends, x) == 0
    {
      NoAnnouncement(o.sends, x);
    }
  }

  lemma {:induction false} NoAnnouncement(sends: seq<Sent>, x: Id)
    requires forall s | s in sends :: !s.message.JoinNotif?
    ensures Announcements(sends, x) == 0
    decreases |sends|
  {
    if sends != [] {
      NoAnnouncement(sends[1..], x);
    }
  }

  lemma AcceptWaits(n: Node, a: Address)
    requires a !in n.newPeers
    ensures Waiting(Accept(n, a)) == Waiting(n)
  {
    var m := Accept(n, a);
    forall x
      ensures x in Waiting(m) <==> x in Waiting(n)
    {
      if x in Waiting(n) {
        var b :| b in n.newPeers && n.newPeers[b].state != New && n.newPeers[b].id == x;
        assert b in m.newPeers && m.newPeers[b] == n.newPeers[b];
      }
    }
  }

  lemma ConnectsKeeps(env: Env, ids: set<Id>, n: Node, a: Address)
    requires AdmissionInv(env, ids, n) && Allowed(env, ids, n, Connects(a))
    ensures Keeps(env, ids, n, Connects(a))
  {
    hide RingsHold, CacheExact, MakeMarker, KeysDistinct, Fair;
    var m := Accept(n, a);
    assert OnRings(m) == OnRings(n);
    assert Underway(m) == Underway(n);
    AcceptWaits(n, a);
    NothingAnswered(n, Outcome(m, []), Connects(a));
  }

  lemma SendsReadyKeeps(env: Env, ids: set<Id>, n: Node, x: Id, stamp: Bytes)
    requires AdmissionInv(env, ids, n)
    ensures Keeps(env, ids, n, SendsReady(x, stamp))
  {
    hide AdmissionInv, LogMessage, Fair;
    var o := SendReady(n, x, stamp);
    LogKeepsAdmission(env, ids, n, o.node.log, o.node.readyTimers);
    NothingAnswered(n, o, SendsReady(x, stamp));
  }

  /** With nobody underway a READY_NOTIF changes nothing but the log. */
  lemma QuietNotice(env: Env, ids: set<Id>, n: Node, q: Id, m: Msg, st: Stamps)
    requires AdmissionInv(env, ids, n) && IdleNotice(n, Member(q), m) && !n.log.Logged(m.stamp)
    ensures CanReceive(env, n, Member(q), m, st)
    ensures var o := Receive(env, n, Member(q), m, st); o.node == n.(log := o.node.log) && o.sends == []
  {
    hide Coherent, Placed, TimersRight, LogMessage, HasOwnMarker;
    WaitingIsKnown(n);
    assert q !in Underway(n);
    assert n.peers[q := Connected] == n.peers;
    assert Seen(n, Member(q)) == n;
  }

  lemma HearsKeeps(env: Env, ids: set<Id>, n: Node, link: Link, m: Msg, st: Stamps)
    requires AdmissionInv(env, ids, n) && Allowed(env, ids, n, Hears(link, m, st))
    ensures Keeps(env, ids, n, Hears(link, m, st))
  {
    hide AdmissionInv, LogMessage, Fair, Waiting, Receive, CanReceive;
    var o := Receive(env, n, link, m, st);
    if m.Data? || n.log.Logged(m.stamp) {
      HearingOnlyLogs(env, n, link, m, st);
    } else {
      QuietNotice(env, ids, n, link.id, m, st);
    }
    LogKeepsAdmission(env, ids, n, o.node.log, n.readyTimers);
    SameWaiting(n, o.node);
    NothingAnswered(n, o, Hears(link, m, st));
  }

  lemma HearingOnlyLogs(env: Env, n: Node, link: Link, m: Msg, st: Stamps)
    requires CanReceive(env, n, link, m, st) && (m.Data? || n.log.Logged(m.stamp))
    ensures var o := Receive(env, n, link, m, st);
            o.node == n.(log := o.node.log) && forall s | s in o.sends :: !s.message.JoinNotif?
  {
    hide LogMessage;
  }

  lemma SameWaiting(n: Node, m: Node)
    requires m.newPeers == n.newPeers
    ensures Waiting(m) == Waiting(n)
  {
  }

  /** A lone entry point that founds its group can admit like any other. */
  lemma FoundAdmits(env: Env, ids: set<Id>, n: Node, groupId: Bytes)
    requires AdmissionInv(env, ids, n) && n.state != Connected && MarkerFree(env, n, groupId)
    ensures AdmissionInv(env, ids, Found(env, n, groupId))
  {
    hide Coherent, KeysDistinct, MakeMarker, View.AddToRings;
    FewerKeysDistinct(env.key, {n.id}, ids);
    FoundKeeps(env, n, groupId) by { assert Consistent(env, n) by { CoherentIsConsistent(env, n); } }
    var f := Found(env, n, groupId);
    assert Underway(f) == Underway(n) == {} && Waiting(f) == Waiting(n);
  }

  lemma CoherentIsConsistent(env: Env, n: Node)
    requires Coherent(env, n)
    ensures Consistent(env, n)
  {
  }

  /** The entry point with this request in its queue. */
  function Named(n: Node, a: Address, m: Msg, port: Port): Node
    requires a in n.newPeers && m.Join?
  {
    n.(newPeers := n.newPeers[a := n.newPeers[a].(id := m.id, pubKey := m.pubKey, state := Joining, port := port)])
  }

  lemma NamedIs(env: Env, ids: set<Id>, n: Node, a: Address, m: Msg, port: Port, log: Log)
    requires AdmissionInv(env, ids, n) && n.state == Connected
    requires a in n.newPeers && n.newPeers[a].state == New && m.Join?
    requires Stranger(ids, n, m.id) && m.id !in n.peers && m.id !in Waiting(n)
    ensures var w := Named(n, a, m, port).(log := log);
            && Waiting(w) == Waiting(n) + {m.id}
            && (n.joinToken ==> Idle(env, ids, w)) && (!n.joinToken ==> AdmissionInv(env, ids, w))
  {
    hide RingsHold, CacheExact, MakeMarker, KeysDistinct;
    var w := Named(n, a, m, port).(log := log);
    assert OnRings(w) == OnRings(n);
    assert Underway(w) == Underway(n);
    NamedWaits(n, a, m, port);
    SameWaiting(Named(n, a, m, port), w);
    assert forall b | b in n.newPeers && n.newPeers[b].state != New :: n.newPeers[b].id in Waiting(n);
  }

  lemma NamedWaits(n: Node, a: Address, m: Msg, port: Port)
    requires a in n.newPeers && n.newPeers[a].state == New && m.Join?
    ensures Waiting(Named(n, a, m, port)) == Waiting(n) + {m.id}
  {
    var w := Named(n, a, m, port);
    forall x
      ensures x in Waiting(w) <==> x in Waiting(n) || x == m.id
    {
      if x in Waiting(n) {
        var b :| b in n.newPeers && n.newPeers[b].state != New && n.newPeers[b].id == x;
        assert b in w.newPeers && w.newPeers[b] == n.newPeers[b];
      }
      assert a in w.newPeers && w.newPeers[a].id == m.id;
    }
  }

  /** What a request leaves to answer, or to queue. */
  lemma RequestComes(env: Env, n: Node, a: Address, m: Msg, st: Stamps)
    requires a in n.newPeers && n.newPeers[a].state == New && m.Join? && !n.log.Logged(m.stamp)
    requires if n.state == Connected then HasOwnMarker(env, n) else MarkerFree(env, n, st.groupId)
    ensures CanReceive(env, n, Unsorted(a), m, st)
    ensures var g := Asked(env, n, a, m, st.groupId);
            var up := if n.state == Connected then n else Found(env, n, st.groupId);
            && HasOwnMarker(env, g) && a in g.newPeers && a in up.newPeers
            && g == Named(up, a, m, n.newPeers[a].port).(log := g.log)
            && Receive(env, n, Unsorted(a), m, st)
               == if n.joinToken then AnswerJoin(env, g, a, m.port, st)
                  else Outcome(Named(up, a, m, m.port).(log := g.log), [])
  {
    hide LogMessage, AnswerJoin, MakeMarker, Asked, View.AddToRings, Process;
    RequestIs(env, n, a, m, st);
    AskedIs(env, n, a, m, st.groupId);
    assert Relay(n, Unsorted(a), m) == Outcome(n, []);
    var o := Process(env, n, Unsorted(a), m, st);
    assert [] + o.sends == o.sends;
    var g := Asked(env, n, a, m, st.groupId);
    var up := if n.state == Connected then n else Found(env, n, st.groupId);
    assert g.newPeers[a := g.newPeers[a].(port := m.port)] == Named(up, a, m, m.port).newPeers;
  }

  lemma AnsweredNow(env: Env, ids: set<Id>, n: Node, a: Address, m: Msg, st: Stamps, log: Log)
    requires AdmissionInv(env, ids, n) && Allowed(env, ids, n, Requests(a, m, st))
    requires n.joinToken && n.state == Connected
    ensures var w := Named(n, a, m, n.newPeers[a].port).(log := log);
            && HasOwnMarker(env, w)
            && var o := AnswerJoin(env, w, a, m.port, st);
               AdmissionInv(env, ids, o.node) && Fair(n, o, Requests(a, m, st)) && m.id in o.node.peers
  {
    hide AdmissionInv, Idle, AnswerJoin, HasOwnMarker, Announcements, Waiting, Named, Fair;
    TokenIs(env, ids, n);
    NamedKeeps(n, a, m, n.newPeers[a].port);
    var w := Named(n, a, m, n.newPeers[a].port).(log := log);
    NamedIs(env, ids, n, a, m, n.newPeers[a].port, log);
    IdleIs(env, ids, w);
    Answering(env, ids, w, a, m.port, st);
    OneMoreIsFair(n, AnswerJoin(env, w, a, m.port, st), Requests(a, m, st), m.id);
  }

  lemma OneMoreIsFair(n: Node, o: Outcome, ev: Event, x: Id)
    requires n.joinToken && !o.node.joinToken && !Completes(ev) && Requested(ev) == {x}
    requires o.node.peers.Keys == n.peers.Keys + {x} && x !in n.peers
    requires Waiting(n) == {} && Waiting(o.node) == {x} - {x}
    requires forall y :: Announcements(o.sends, y) == Once(y == x)
    ensures Fair(n, o, ev)
  {
    hide Waiting, Announcements, Requested, Completes;
    OneMoves(n.peers.Keys, {x}, x);
  }

  lemma Queued(env: Env, ids: set<Id>, n: Node, a: Address, m: Msg, st: Stamps, log: Log)
    requires AdmissionInv(env, ids, n) && Allowed(env, ids, n, Requests(a, m, st))
    requires !n.joinToken && n.state == Connected
    ensures var o := Outcome(Named(n, a, m, m.port).(log := log), []);
            AdmissionInv(env, ids, o.node) && Fair(n, o, Requests(a, m, st)) && m.id in Waiting(o.node)
            && m.id !in o.node.peers
  {
    hide AdmissionInv, Fair, Waiting, Named;
    NamedKeeps(n, a, m, m.port);
    NamedIs(env, ids, n, a, m, m.port, log);
    NothingAnswered(n, Outcome(Named(n, a, m, m.port).(log := log), []), Requests(a, m, st));
  }

  /** Founding changes nothing a request's fairness speaks of. */
  lemma FoundingIsFair(env: Env, n: Node, groupId: Bytes, o: Outcome, ev: Event)
    requires Fair(Found(env, n, groupId), o, ev)
    ensures Fair(n, o, ev)
  {
    hide Announcements, Found, Waiting, Requested, Completes;
    FoundIs(env, n, groupId);
    SameWaiting(n, Found(env, n, groupId));
  }

  lemma FoundAllows(env: Env, ids: set<Id>, n: Node, ev: Event, groupId: Bytes)
    requires Allowed(env, ids, n, ev) && ev.Requests?
    ensures Allowed(env, ids, Found(env, n, groupId), ev)
  {
    hide MakeMarker, View.AddToRings;
    SameWaiting(n, Found(env, n, groupId));
  }

  lemma LoneHasToken(env: Env, ids: set<Id>, n: Node)
    requires AdmissionInv(env, ids, n)
    ensures n.state != Connected ==> n.joinToken
    ensures if n.state == Connected then HasOwnMarker(env, n) else n.peers == map[]
  {
    hide Coherent, HasOwnMarker;
    assert n.peers == map[] ==> Underway(n) == {};
    if n.state == Connected {
      InGroup(env, n);
    }
  }

  /** A request is answered in the handler it arrives in exactly when the token
      is free, by a group founded for it if there was none; otherwise it waits. */
  lemma RequestsKeeps(env: Env, ids: set<Id>, n: Node, a: Address, m: Msg, st: Stamps)
    requires AdmissionInv(env, ids, n) && Allowed(env, ids, n, Requests(a, m, st))
    ensures Keeps(env, ids, n, Requests(a, m, st))
    ensures var o := After(env, n, Requests(a, m, st));
            (m.id in o.node.peers <==> n.joinToken) && (m.id in Waiting(o.node) <==> !n.joinToken)
  {
    hide AdmissionInv, AnswerJoin, HasOwnMarker, Fair, Waiting, Receive, CanReceive, Named, Found, Asked, MarkerFree;
    LoneHasToken(env, ids, n);
    RequestComes(env, n, a, m, st);
    var log := Asked(env, n, a, m, st.groupId).log;
    var ev := Requests(a, m, st);
    if n.state != Connected {
      FoundAdmits(env, ids, n, st.groupId);
      FoundAllows(env, ids, n, ev, st.groupId);
      FoundIs(env, n, st.groupId);
      AnsweredNow(env, ids, Found(env, n, st.groupId), a, m, st, log);
      FoundingIsFair(env, n, st.groupId, After(env, n, ev), ev);
      AnsweredDoNotWait(env, ids, After(env, n, ev).node);
    } else if n.joinToken {
      AnsweredNow(env, ids, n, a, m, st, log);
      AnsweredDoNotWait(env, ids, After(env, n, ev).node);
    } else {
      Queued(env, ids, n, a, m, st, log);
    }
  }

  lemma FoundIs(env: Env, n: Node, groupId: Bytes)
    ensures var f := Found(env, n, groupId);
            && f.state == Connected && f.joinToken == n.joinToken
            && f.newPeers == n.newPeers && f.peers == n.peers
            && f.joinTimers == n.joinTimers && f.readyTimers == n.readyTimers
  {
    hide View.AddToRings;
  }

  lemma AnsweredDoNotWait(env: Env, ids: set<Id>, n: Node)
    requires AdmissionInv(env, ids, n)
    ensures Waiting(n) !! n.peers.Keys
    ensures forall x | x in n.peers :: x !in Waiting(n)
  {
  }

  lemma NamedKeeps(n: Node, a: Address, m: Msg, port: Port)
    requires a in n.newPeers && m.Join?
    ensures var w := Named(n, a, m, port);
            && w.peers == n.peers && w.joinToken == n.joinToken && a in w.newPeers
            && w.newPeers[a].state == Joining && w.newPeers[a].id == m.id
  {
  }

  lemma TokenIs(env: Env, ids: set<Id>, n: Node)
    requires AdmissionInv(env, ids, n)
    ensures n.joinToken ==> Waiting(n) == {}
  {
  }

  lemma StepKeeps(env: Env, ids: set<Id>, n: Node, ev: Event)
    requires AdmissionInv(env, ids, n) && Allowed(env, ids, n, ev)
    ensures Keeps(env, ids, n, ev)
  {
    hide AdmissionInv, Keeps;
    match ev
    case Connects(a) => ConnectsKeeps(env, ids, n, a);
    case Requests(a, m, st) => RequestsKeeps(env, ids, n, a, m, st);
    case Expires(x, st) => ExpiresKeeps(env, ids, n, x, st);
    case Notifies(x, m, st) => NotifiesKeeps(env, ids, n, x, m, st);
    case SendsReady(x, stamp) => SendsReadyKeeps(env, ids, n, x, stamp);
    case Hears(link, m, st) => HearsKeeps(env, ids, n, link, m, st);
  }

  lemma NextAfterTimer(env: Env, ids: set<Id>, n: Node, x: Id, st: Stamps)
    requires AdmissionInv(env, ids, n) && x in n.joinTimers && Waiting(n) != {}
    ensures CanHandle(env, n, Expires(x, st))
    ensures exists a :: FirstKnown(n.newPeers, a) && Underway(After(env, n, Expires(x, st)).node) == {n.newPeers[a].id}
  {
    hide AdmissionInv, Idle, Answers, CheckForNewPeers, CanCheck, Waiting, Underway, FirstKnown;
    TimerIsUnderway(env, ids, n, x);
    CompletedIsIdle(env, ids, n, x, n.log);
    Checked(env, ids, Completed(n, x), st);
  }

  lemma NoticeIs(env: Env, n: Node, x: Id, m: Msg, st: Stamps)
    requires x in n.peers && n.joinTimers - {x} == n.joinTimers && n.peers[x] != New
    requires m.ReadyNotif? && !n.log.Logged(m.stamp) && CanReceive(env, n, Member(x), m, st)
    ensures var c := Completed(n, x).(log := LogMessage(n, m, Some(x)).log);
            CanCheck(env, c) && Receive(env, n, Member(x), m, st).node == CheckForNewPeers(env, c, st).node
  {
    hide LogMessage, CheckForNewPeers, HasOwnMarker;
    var log := LogMessage(n, m, Some(x)).log;
    assert Seen(n.(log := log), Member(x)) == Completed(n, x).(log := log);
    SameMarker(env, Seen(n, Member(x)), log);
  }

  lemma SameMarker(env: Env, n: Node, log: Log)
    ensures HasOwnMarker(env, n.(log := log)) <==> HasOwnMarker(env, n)
  {
  }

  lemma NextAfterNotice(env: Env, ids: set<Id>, n: Node, x: Id, m: Msg, st: Stamps)
    requires AdmissionInv(env, ids, n) && Allowed(env, ids, n, Notifies(x, m, st)) && Waiting(n) != {}
    requires CanReceive(env, n, Member(x), m, st)
    ensures exists a :: FirstKnown(n.newPeers, a)
                        && Underway(Receive(env, n, Member(x), m, st).node) == {n.newPeers[a].id}
  {
    hide AdmissionInv, Idle, Answers, CheckForNewPeers, CanCheck, Waiting, FirstKnown, LogMessage, Beside, Receive,
      CanReceive, Completed;
    var log := LogMessage(n, m, Some(x)).log;
    NotTimed(env, ids, n, x);
    NoticeIs(env, n, x, m, st);
    CompletedIsIdle(env, ids, n, x, log);
    CompletedPending(n, x, log);
    Checked(env, ids, Completed(n, x).(log := log), st);
  }

  lemma CompletedPending(n: Node, x: Id, log: Log)
    ensures Completed(n, x).(log := log).newPeers == n.newPeers
  {
  }

  /** However the join underway completes, of those who wait the first by
      address is next. */
  lemma FirstAddressNext(env: Env, ids: set<Id>, n: Node, ev: Event)
    requires AdmissionInv(env, ids, n) && Allowed(env, ids, n, ev) && Completes(ev) && Waiting(n) != {}
    ensures CanHandle(env, n, ev)
    ensures exists a :: FirstKnown(n.newPeers, a) && Underway(After(env, n, ev).node) == {n.newPeers[a].id}
  {
    hide AdmissionInv, Waiting, Underway, FirstKnown, Receive, CanReceive, CompleteJoin, CanCheck, Beside, Fair;
    StepKeeps(env, ids, n, ev);
    match ev
    case Expires(x, st) => NextAfterTimer(env, ids, n, x, st);
    case Notifies(x, m, st) => NextAfterNotice(env, ids, n, x, m, st);
  }

  /** Which that is, byte by byte: of two waiting addresses the one with the
      smaller byte where they first differ goes first, however long they are; and
      only if the one begins the other, the shorter. */
  lemma SmallerByteFirst(env: Env, ids: set<Id>, n: Node, ev: Event, a: Address, b: Address)
    requires AdmissionInv(env, ids, n) && Allowed(env, ids, n, ev) && Completes(ev)
    requires a in n.newPeers && n.newPeers[a].state != New && b in n.newPeers && n.newPeers[b].state != New
    requires a < b || exists k :: SmallerAt(a, b, k)
    ensures CanHandle(env, n, ev)
    ensures n.newPeers[b].id !in After(env, n, ev).node.peers
    ensures (forall c | c in n.newPeers && n.newPeers[c].state != New && c != a ::
              a < c || exists k :: SmallerAt(a, c, k))
            ==> Underway(After(env, n, ev).node) == {n.newPeers[a].id}
  {
    hide AdmissionInv, CanHandle, After, Underway, Waiting, Allowed, SmallerAt, Fair;
    WaitingIsKnown(n);
    assert !NobodyKnown(n.newPeers);
    FirstAddressNext(env, ids, n, ev);
    StepKeeps(env, ids, n, ev);
    var c :| FirstKnown(n.newPeers, c) && Underway(After(env, n, ev).node) == {n.newPeers[c].id};
    FirstDifferenceDecides(a, b);
    LessTotal(a, b);
    LessTotal(b, c);
    CompletingNeedsToken(env, ids, n, ev);
    OthersNotAnswered(env, ids, n, ev, b, c);
    if forall d | d in n.newPeers && n.newPeers[d].state != New && d != a :: a < d || exists k :: SmallerAt(a, d, k) {
      if c != a {
        FirstDifferenceDecides(a, c);
        LessTotal(a, c);
      }
    }
  }

  lemma OthersNotAnswered(env: Env, ids: set<Id>, n: Node, ev: Event, b: Address, c: Address)
    requires AdmissionInv(env, ids, n) && CanHandle(env, n, ev) && AdmissionInv(env, ids, After(env, n, ev).node)
    requires Fair(n, After(env, n, ev), ev) && Completes(ev) && !n.joinToken
    requires b in n.newPeers && n.newPeers[b].state != New && c in n.newPeers && n.newPeers[c].state != New && b != c
    requires Underway(After(env, n, ev).node) == {n.newPeers[c].id}
    ensures n.newPeers[b].id !in After(env, n, ev).node.peers
  {
    hide Coherent, Placed, TimersRight, TokenRight, CanHandle, After, Announcements;
    var m := After(env, n, ev).node;
    assert n.newPeers[b].id in Waiting(n) && n.newPeers[c].id in Waiting(n);
    assert n.newPeers[c].id in m.peers.Keys - n.peers.Keys;
    OneOnly(m.peers.Keys - n.peers.Keys, n.newPeers[c].id);
    assert n.newPeers[b].id !in m.peers.Keys - n.peers.Keys;
  }

  lemma OneOnly(some: set<Id>, x: Id)
    requires |some| <= 1 && x in some
    ensures some == {x}
  {
    assert some == {x} + (some - {x});
  }

  lemma CompletingNeedsToken(env: Env, ids: set<Id>, n: Node, ev: Event)
    requires AdmissionInv(env, ids, n) && Allowed(env, ids, n, ev) && Completes(ev)
    ensures !n.joinToken
  {
    hide Coherent, Placed, Orderly, Beside;
  }

  /** Those who wait are not answered in the order in which they asked: whoever
      asks while others wait, from an address before all of theirs, is next. */
  lemma LaterOvertakes(env: Env, ids: set<Id>, n: Node, a: Address, m: Msg, st: Stamps, ev: Event)
    requires AdmissionInv(env, ids, n) && Allowed(env, ids, n, Requests(a, m, st)) && !n.joinToken
    requires forall b | b in n.newPeers && n.newPeers[b].state != New :: Less(a, b)
    requires CanHandle(env, n, Requests(a, m, st))
    requires Allowed(env, ids, After(env, n, Requests(a, m, st)).node, ev) && Completes(ev)
    ensures CanHandle(env, After(env, n, Requests(a, m, st)).node, ev)
    ensures Underway(After(env, After(env, n, Requests(a, m, st)).node, ev).node) == {m.id}
  {
    hide AdmissionInv, CanHandle, After, Underway, Named, Waiting, Allowed, Fair;
    var later := After(env, n, Requests(a, m, st)).node;
    RequestsKeeps(env, ids, n, a, m, st);
    QueuedIs(env, ids, n, a, m, st);
    FirstAddressNext(env, ids, later, ev);
    var b :| FirstKnown(later.newPeers, b) && Underway(After(env, later, ev).node) == {later.newPeers[b].id};
    NamedFirst(n, a, m, m.port, b);
  }

  lemma QueuedIs(env: Env, ids: set<Id>, n: Node, a: Address, m: Msg, st: Stamps)
    requires AdmissionInv(env, ids, n) && Allowed(env, ids, n, Requests(a, m, st)) && !n.joinToken
    requires CanHandle(env, n, Requests(a, m, st))
    ensures a in n.newPeers && m.Join?
    ensures After(env, n, Requests(a, m, st)).node.newPeers == Named(n, a, m, m.port).newPeers
    ensures n.newPeers[a].state == New
  {
    hide AdmissionInv, Receive, CanReceive, AnswerJoin, Asked, HasOwnMarker, MarkerFree;
    LoneHasToken(env, ids, n);
    RequestComes(env, n, a, m, st);
  }

  lemma NamedFirst(n: Node, a: Address, m: Msg, port: Port, b: Address)
    requires a in n.newPeers && m.Join? && FirstKnown(Named(n, a, m, port).newPeers, b)
    requires forall c | c in n.newPeers && n.newPeers[c].state != New :: Less(a, c)
    ensures b == a && Named(n, a, m, port).newPeers[a].id == m.id
  {
    if b != a {
      assert Less(a, b);
      assert Named(n, a, m, port).newPeers[a].state != New;
      LessTotal(a, b);
    }
  }

  // ---------------------------------------------------------- every run

  ghost predicate RunAllowed(env: Env, ids: set<Id>, n: Node, evs: seq<Event>)
    decreases |evs|
  {
    evs == []
    || (Allowed(env, ids, n, evs[0]) && CanHandle(env, n, evs[0])
        && RunAllowed(env, ids, After(env, n, evs[0]).node, evs[1..]))
  }

  ghost function RunEnd(env: Env, ids: set<Id>, n: Node, evs: seq<Event>): Node
    requires RunAllowed(env, ids, n, evs)
    decreases |evs|
  {
    if evs == [] then n else RunEnd(env, ids, After(env, n, evs[0]).node, evs[1..])
  }

  /** How often the group was told of x. */
  ghost function Announced(env: Env, ids: set<Id>, n: Node, evs: seq<Event>, x: Id): nat
    requires RunAllowed(env, ids, n, evs)
    decreases |evs|
  {
    if evs == [] then 0
    else Announcements(After(env, n, evs[0]).sends, x) + Announced(env, ids, After(env, n, evs[0]).node, evs[1..], x)
  }

  function Completions(evs: seq<Event>): nat {
    if evs == [] then 0 else Once(Completes(evs[0])) + Completions(evs[1..])
  }

  function AllRequested(evs: seq<Event>): set<Id> {
    if evs == [] then {} else Requested(evs[0]) + AllRequested(evs[1..])
  }

  /** Two fair stretches make one. */
  lemma FairTwice(p0: set<Id>, w0: set<Id>, p1: set<Id>, w1: set<Id>, p2: set<Id>, w2: set<Id>, r1: set<Id>,
          r2: set<Id>)
    requires p0 <= p1 <= p2 && p1 + w1 == p0 + w0 + r1 && p2 + w2 == p1 + w1 + r2
    requires p1 - p0 <= w0 + r1 && p2 - p1 <= w1 + r2
    ensures p2 + w2 == p0 + w0 + (r1 + r2) && p2 - p0 <= w0 + (r1 + r2)
    ensures |p2 - p0| == |p2 - p1| + |p1 - p0|
  {
    assert p2 - p0 == (p2 - p1) + (p1 - p0);
    forall x | x in p2 - p0
      ensures x in w0 + (r1 + r2)
    {
      if x !in p1 {
        assert x in w1 + r2;
        assert x in w1 ==> x in p1 + w1;
      }
    }
  }

  /** Fair, over a whole run. */
  ghost predicate FairRun(n: Node, end: Node, requested: set<Id>, completions: nat) {
    && n.peers.Keys <= end.peers.Keys
    && end.peers.Keys + Waiting(end) == n.peers.Keys + Waiting(n) + requested
    && end.peers.Keys - n.peers.Keys <= Waiting(n) + requested
    && |end.peers.Keys - n.peers.Keys| + Once(end.joinToken) == Once(n.joinToken) + completions
  }

  lemma FairParts(n: Node, o: Outcome, ev: Event)
    requires Fair(n, o, ev)
    ensures n.peers.Keys <= o.node.peers.Keys
    ensures o.node.peers.Keys + Waiting(o.node) == n.peers.Keys + Waiting(n) + Requested(ev)
    ensures o.node.peers.Keys - n.peers.Keys <= Waiting(n) + Requested(ev)
    ensures |o.node.peers.Keys - n.peers.Keys| + Once(o.node.joinToken) == Once(n.joinToken) + Once(Completes(ev))
  {
    hide Waiting, Announcements, Requested, Completes;
  }

  lemma FairThen(n: Node, o: Outcome, ev: Event, end: Node, requested: set<Id>, completions: nat)
    requires Fair(n, o, ev) && FairRun(o.node, end, requested, completions)
    ensures FairRun(n, end, Requested(ev) + requested, Once(Completes(ev)) + completions)
  {
    hide Waiting, Requested, Completes, Fair, Once;
    FairParts(n, o, ev);
    FairTwice(n.peers.Keys, Waiting(n), o.node.peers.Keys, Waiting(o.node), end.peers.Keys, Waiting(end),
              Requested(ev), requested);
  }

  lemma FairToStay(n: Node)
    ensures FairRun(n, n, {}, 0)
  {
    hide Waiting;
    assert n.peers.Keys - n.peers.Keys == {};
  }

  /** Over every run: one newcomer underway at a time, and the token free exactly
      when there is none; whoever asked was answered or waits still; and answers
      are paid for by completions. */
  lemma {:induction false} RunAdmits(env: Env, ids: set<Id>, n: Node, evs: seq<Event>)
    requires AdmissionInv(env, ids, n) && RunAllowed(env, ids, n, evs)
    ensures var end := RunEnd(env, ids, n, evs);
            AdmissionInv(env, ids, end) && FairRun(n, end, AllRequested(evs), Completions(evs))
    decreases |evs|
  {
    hide AdmissionInv, Allowed, CanHandle, After, Fair, FairRun, Requested, Completes;
    if evs == [] {
      FairToStay(n);
    } else {
      StepKeeps(env, ids, n, evs[0]);
      var o, end := After(env, n, evs[0]), RunEnd(env, ids, n, evs);
      RunAdmits(env, ids, o.node, evs[1..]);
      FairThen(n, o, evs[0], end, AllRequested(evs[1..]), Completions(evs[1..]));
    }
  }

  lemma FairAnnounces(n: Node, o: Outcome, ev: Event, x: Id)
    requires Fair(n, o, ev)
    ensures Announcements(o.sends, x) == Once(x in o.node.peers && x !in n.peers) && n.peers.Keys <= o.node.peers.Keys
  {
    hide Waiting, Announcements, Requested, Completes;
  }

  /** The group is told of a newcomer once if it is answered in the run, and
      never otherwise. */
  lemma {:induction false} RunAnnounces(env: Env, ids: set<Id>, n: Node, evs: seq<Event>, x: Id)
    requires AdmissionInv(env, ids, n) && RunAllowed(env, ids, n, evs)
    ensures var end := RunEnd(env, ids, n, evs);
            n.peers.Keys <= end.peers.Keys && Announced(env, ids, n, evs, x) == Once(x in end.peers && x !in n.peers)
    decreases |evs|
  {
    hide AdmissionInv, Allowed, CanHandle, After, Fair, Announcements;
    if evs != [] {
      StepKeeps(env, ids, n, evs[0]);
      var o := After(env, n, evs[0]);
      FairAnnounces(n, o, evs[0], x);
      RunAnnounces(env, ids, o.node, evs[1..], x);
    }
  }

  /** Once there were as many completions as requests, nobody waits. */
  lemma AllAnswered(env: Env, ids: set<Id>, n: Node, evs: seq<Event>)
    requires AdmissionInv(env, ids, n) && RunAllowed(env, ids, n, evs)
    requires Completions(evs) + Once(n.joinToken) >= |Waiting(n) + AllRequested(evs)|
    ensures var end := RunEnd(env, ids, n, evs);
            Waiting(end) == {} && Waiting(n) + AllRequested(evs) <= end.peers.Keys
  {
    hide AdmissionInv, RunAllowed, RunEnd, Waiting, AllRequested, Completions;
    RunAdmits(env, ids, n, evs);
    var end := RunEnd(env, ids, n, evs);
    TokenIs(env, ids, end);
    AnsweredDoNotWait(env, ids, end);
    var due, got := Waiting(n) + AllRequested(evs), end.peers.Keys - n.peers.Keys;
    if !end.joinToken {
      SameSize(got, due);
    }
  }

  lemma SameSize(a: set<Id>, b: set<Id>)
    requires a <= b && |a| >= |b|
    ensures a == b
  {
    assert b == a + (b - a);
  }

  // ---------------------------------------------------- the beginning

  /** A starting node can admit: so the theorems above hold of every run of an
      entry point, from its start. */
  lemma StartAdmits(env: Env, ids: set<Id>, id: Id, pubKey: Bytes)
    requires KeysDistinct(env.key, ids) && id in ids
    ensures AdmissionInv(env, ids, StartingNode(id, pubKey))
  {
    hide KeysDistinct;
  }

  // ------------------------------------------------------------- limits

  /** The token is taken, for nobody, and no timer will give it back. */
  predicate Stranded(n: Node) {
    !n.joinToken && Underway(n) == {} && n.joinTimers == {}
  }

  /** Whoever is next to local and does not leave stays next to it when p does. */
  lemma NeighboursStay(key: RingKeys, members: set<Id>, p: Id, local: Id, x: Id)
    requires x != p && local != p && x in Succs(key, members, local) + Preds(key, members, local)
    ensures x in Succs(key, members - {p}, local) + Preds(key, members - {p}, local)
  {
    var rest := members - {p};
    assert forall i | 0 <= i < RINGS_NB :: IsNext(key, i, members, local, x) ==> IsNext(key, i, rest, local, x);
    assert forall i | 0 <= i < RINGS_NB :: IsNext(key, i, members, x, local) ==> IsNext(key, i, rest, x, local);
  }

  /** Who is next to the entry point once p is gone. */
  ghost function NextWithout(env: Env, n: Node, p: Id): set<Id> {
    Succs(env.key, OnRings(n) - {p}, n.id) + Preds(env.key, OnRings(n) - {p}, n.id)
  }

  lemma BesideIsNext(env: Env, n: Node, x: Id)
    requires Coherent(env, n) && n.group.Some?
    ensures Beside(n, x) <==> x in Succs(env.key, OnRings(n), n.id) + Preds(env.key, OnRings(n), n.id)
  {
    hide Succs, Preds, RingsHold, MakeMarker;
  }

  /** What a disconnection leaves of the tables admission looks at. */
  lemma LossLeaves(env: Env, ids: set<Id>, n: Node, p: Id, a: Address)
    requires AdmissionInv(env, ids, n) && p in n.peers
    ensures n.group.Some?
    ensures var after := HandleDisconnect(env, n, p, a);
            && Coherent(env, after) && Placed(env, ids, after) && Orderly(after)
            && after.peers == n.peers - {p} && after.joinToken == n.joinToken && after.joinTimers == n.joinTimers
            && after.newPeers == n.newPeers && after.id == n.id && after.log == n.log
            && Underway(after) == Underway(n) - {p} && Waiting(after) == Waiting(n)
            && if after.peers == map[] && after.newPeers == map[] then after.group.None? && after.state != Connected
               else after.state == Connected && after.group.Some? && OnRings(after) == OnRings(n) - {p}
  {
    hide RingsHold, CacheExact, MakeMarker, KeysDistinct, View.RemovePeer, View.UpdateNeighbours;
    FewerKeysDistinct(env.key, n.peers.Keys + {n.id}, ids);
    DisconnectKeeps(env, n, p, a);
    assert (n.peers - {p}).Keys == n.peers.Keys - {p};
    assert Underway(HandleDisconnect(env, n, p, a)) == Underway(n) - {p};
  }

  /** A disconnection leaves admission as it should be if and only if the peer
      lost is not the one underway, and the one underway does not become a
      neighbour with its timer armed. */
  lemma LosingAPeer(env: Env, ids: set<Id>, n: Node, p: Id, a: Address)
    requires AdmissionInv(env, ids, n) && p in n.peers
    ensures n.group.Some?
    ensures AdmissionInv(env, ids, HandleDisconnect(env, n, p, a))
            <==> p !in Underway(n) && n.joinTimers !! NextWithout(env, n, p)
  {
    hide Coherent, Placed, Orderly, HandleDisconnect, OnRings, Succs, Preds, Beside, Waiting;
    LossLeaves(env, ids, n, p, a);
    var after := HandleDisconnect(env, n, p, a);
    if p in Underway(n) {
      assert !n.joinToken;
    } else {
      assert Underway(after) == Underway(n);
      if Underway(n) != {} {
        var x :| x in Underway(n);
        assert Underway(n) == {x};
        assert x in after.peers;
        LossMoves(env, ids, n, p, a, x);
      }
    }
  }

  lemma LossMoves(env: Env, ids: set<Id>, n: Node, p: Id, a: Address, x: Id)
    requires AdmissionInv(env, ids, n) && p in n.peers && x in n.peers && x != p
    ensures n.group.Some?
    ensures Beside(HandleDisconnect(env, n, p, a), x) <==> x in NextWithout(env, n, p)
    ensures Beside(n, x) ==> x in NextWithout(env, n, p)
  {
    hide Coherent, Placed, HandleDisconnect, OnRings, Succs, Preds, Beside, Orderly, TokenRight, TimersRight, Waiting;
    LossLeaves(env, ids, n, p, a);
    assert x in HandleDisconnect(env, n, p, a).peers;
    BesideIsNext(env, n, x);
    BesideIsNext(env, HandleDisconnect(env, n, p, a), x);
    NotSelf(env, n);
    if Beside(n, x) {
      NeighboursStay(env.key, OnRings(n), p, n.id, x);
    }
  }

  lemma NotSelf(env: Env, n: Node)
    requires Coherent(env, n)
    ensures n.id !in n.peers
  {
    hide RingsHold, CacheExact, MakeMarker;
  }

  /** Losing the newcomer strands the entry point if and only if the newcomer had
      become a neighbour. */
  lemma LosingTheNewcomer(env: Env, ids: set<Id>, n: Node, p: Id, a: Address)
    requires AdmissionInv(env, ids, n) && p in n.peers
    ensures n.group.Some?
    ensures Stranded(HandleDisconnect(env, n, p, a)) <==> p in Underway(n) && Beside(n, p)
  {
    hide Coherent, Placed, Orderly, HandleDisconnect, OnRings, Beside, Waiting;
    LossLeaves(env, ids, n, p, a);
  }

  /** Otherwise its timer is still armed, and when it expires admission is as it
      should be again. */
  lemma TimerRestores(env: Env, ids: set<Id>, n: Node, p: Id, a: Address, st: Stamps)
    requires AdmissionInv(env, ids, n) && p in Underway(n) && p in n.joinTimers && n.group.Some?
    ensures var after := HandleDisconnect(env, n, p, a);
            && p in after.joinTimers && CanCheck(env, Completed(after, p))
            && AdmissionInv(env, ids, CompleteJoin(env, after, p, st).node)
  {
    hide Coherent, Placed, Orderly, HandleDisconnect, OnRings, Beside, Waiting, CheckForNewPeers, CanCheck,
      AdmissionInv, TokenRight;
    assert n.joinTimers == {p} && Underway(n) == {p} by { OneUnderway(env, ids, n, p); }
    LossLeaves(env, ids, n, p, a);
    var after := HandleDisconnect(env, n, p, a);
    var c := Completed(after, p);
    assert c == after.(joinTimers := {});
    TimersAreNoTables(env, ids, after, {});
    if after.state == Connected {
      SameWaiting(after, c);
      Checked(env, ids, c, st);
    } else {
      NobodyPending(env, c, st);
      LoneAdmits(env, ids, c);
    }
  }

  lemma OneUnderway(env: Env, ids: set<Id>, n: Node, p: Id)
    requires AdmissionInv(env, ids, n) && p in Underway(n) && p in n.joinTimers
    ensures n.joinTimers == {p} && Underway(n) == {p}
  {
    hide Coherent, Placed, Orderly, Beside;
  }

  lemma TimersAreNoTables(env: Env, ids: set<Id>, n: Node, timers: set<Id>)
    requires Coherent(env, n) && Placed(env, ids, n) && Orderly(n)
    ensures var m := n.(joinTimers := timers);
            Coherent(env, m) && Placed(env, ids, m) && Orderly(m) && Underway(m) == Underway(n)
  {
    hide RingsHold, CacheExact, MakeMarker, KeysDistinct;
    assert OnRings(n.(joinTimers := timers)) == OnRings(n);
  }

  lemma NobodyPending(env: Env, n: Node, st: Stamps)
    requires n.newPeers == map[]
    ensures CanCheck(env, n) && CheckForNewPeers(env, n, st) == Outcome(n.(joinToken := true), [])
  {
  }

  lemma LoneAdmits(env: Env, ids: set<Id>, n: Node)
    requires Coherent(env, n) && Placed(env, ids, n) && Orderly(n)
    requires n.peers == map[] && n.newPeers == map[] && n.joinTimers == {}
    ensures AdmissionInv(env, ids, n.(joinToken := true))
  {
    hide Coherent, KeysDistinct;
    TokenKeepsCoherent(env, n);
    assert Underway(n.(joinToken := true)) == {};
  }

  // ------------------------------------------- notices that do not fit

  /** What check_for_new_peers does to the tables admission looks at. */
  lemma CheckMoves(env: Env, n: Node, st: Stamps)
    requires HasOwnMarker(env, n) && Orderly(n)
    ensures var after := CheckForNewPeers(env, n, st).node;
            && n.joinTimers <= after.joinTimers && after.joinToken == (Waiting(n) == {})
            && if Waiting(n) == {} then after == n.(joinToken := true)
               else exists y :: y in Waiting(n) && y !in n.peers && after.peers == n.peers[y := Joining]
                                && Waiting(after) == Waiting(n) - {y} && Orderly(after) && HasOwnMarker(env, after)
  {
    hide AnswerJoin, Orderly, HasOwnMarker, Waiting;
    SomebodyFirst(n.newPeers);
    WaitingIsKnown(n);
    forall a | FirstKnown(n.newPeers, a)
      ensures var after := AnswerJoin(env, n, a, n.newPeers[a].port, st).node; var y := n.newPeers[a].id;
              && n.joinTimers <= after.joinTimers && !after.joinToken && y in Waiting(n) && y !in n.peers
              && after.peers == n.peers[y := Joining] && Waiting(after) == Waiting(n) - {y} && Orderly(after)
              && HasOwnMarker(env, after) && Waiting(n) != {}
    {
      AnswerMoves(env, n, a, st);
    }
  }

  lemma AnswerMoves(env: Env, n: Node, a: Address, st: Stamps)
    requires HasOwnMarker(env, n) && Orderly(n) && FirstKnown(n.newPeers, a)
    ensures var after := AnswerJoin(env, n, a, n.newPeers[a].port, st).node; var y := n.newPeers[a].id;
            && n.joinTimers <= after.joinTimers && !after.joinToken && y in Waiting(n) && y !in n.peers
            && after.peers == n.peers[y := Joining] && Waiting(after) == Waiting(n) - {y} && Orderly(after)
            && HasOwnMarker(env, after) && Waiting(n) != {}
  {
    hide AnswerJoin, HasOwnMarker, Waiting, Beside;
    AnswerEffect(env, n, a, n.newPeers[a].port, st);
    AnswerKeepsMarker(env, n, a, n.newPeers[a].port, st);
    WaitingLess(n, a, AnswerJoin(env, n, a, n.newPeers[a].port, st).node);
  }

  lemma AnswerKeepsMarker(env: Env, n: Node, a: Address, port: Port, st: Stamps)
    requires HasOwnMarker(env, n) && a in n.newPeers
    ensures HasOwnMarker(env, AnswerJoin(env, n, a, port, st).node)
  {
    hide Serialize, LogMessage, View.AddPeer, View.UpdateNeighbours, MakeMarker;
    IdKept(env.key, n.group.value, n.newPeers[a].id, n.id);
  }

  /** Checking while somebody is underway never leaves the token right: either it
      is free all the same, or two are underway. */
  lemma CheckedTooSoon(env: Env, n: Node, st: Stamps, x: Id)
    requires HasOwnMarker(env, n) && Orderly(n) && x in Underway(n)
    ensures !TokenRight(CheckForNewPeers(env, n, st).node)
  {
    hide CheckForNewPeers, HasOwnMarker, Waiting, Orderly;
    CheckMoves(env, n, st);
    var after := CheckForNewPeers(env, n, st).node;
    if Waiting(n) == {} {
      assert x in Underway(after);
    } else {
      var y :| y in Waiting(n) && y !in n.peers && after.peers == n.peers[y := Joining];
      assert x in Underway(after) && y in Underway(after) && x != y;
    }
  }

  /** A READY_NOTIF from a known peer leaves admission as it should be if and only
      if nobody is underway, or it comes from the one who is, as a neighbour. */
  lemma NoticeMustFit(env: Env, ids: set<Id>, n: Node, q: Id, m: Msg, st: Stamps)
    requires AdmissionInv(env, ids, n) && q in n.peers && n.peers[q] != New && m.ReadyNotif? && !n.log.Logged(m.stamp)
    ensures CanReceive(env, n, Member(q), m, st)
    ensures AdmissionInv(env, ids, Receive(env, n, Member(q), m, st).node)
            <==> Underway(n) == {} || (q in Underway(n) && Beside(n, q))
  {
    hide AdmissionInv, Receive, CanReceive, Beside, Coherent, Placed, Fair, LogMessage;
    TokenIs(env, ids, n);
    TokenMeans(env, ids, n);
    if Underway(n) == {} {
      QuietNotice(env, ids, n, q, m, st);
      LogKeepsAdmission(env, ids, n, Receive(env, n, Member(q), m, st).node.log, n.readyTimers);
    } else if q in Underway(n) && Beside(n, q) {
      NotifiesKeeps(env, ids, n, q, m, st);
    } else {
      NoticeMisfits(env, ids, n, q, m, st);
    }
  }

  lemma TokenMeans(env: Env, ids: set<Id>, n: Node)
    requires AdmissionInv(env, ids, n)
    ensures n.joinToken <==> Underway(n) == {}
    ensures n.peers != map[] ==> HasOwnMarker(env, n)
    ensures Orderly(n) && TimersRight(n) && forall x, y | x in Underway(n) && y in Underway(n) :: x == y
  {
    hide Coherent, HasOwnMarker;
    if n.peers != map[] {
      InGroup(env, n);
    }
  }

  lemma NoticeMisfits(env: Env, ids: set<Id>, n: Node, q: Id, m: Msg, st: Stamps)
    requires AdmissionInv(env, ids, n) && q in n.peers && n.peers[q] != New && m.ReadyNotif? && !n.log.Logged(m.stamp)
    requires Underway(n) != {} && !(q in Underway(n) && Beside(n, q))
    ensures CanReceive(env, n, Member(q), m, st)
    ensures !AdmissionInv(env, ids, Receive(env, n, Member(q), m, st).node)
  {
    hide AdmissionInv, Beside, Coherent, Placed, LogMessage, CheckForNewPeers, HasOwnMarker, TokenRight, Waiting,
      Orderly;
    TokenMeans(env, ids, n);
    var log := LogMessage(n, m, Some(q)).log;
    var c := Seen(n.(log := log), Member(q));
    SeenIs(env, n, q, log);
    assert Receive(env, n, Member(q), m, st).node == CheckForNewPeers(env, c, st).node;
    var x :| x in Underway(n);
    if q == x {
      CheckMoves(env, c, st);
      StaleTimer(env, ids, c, CheckForNewPeers(env, c, st).node, x);
    } else {
      assert x in Underway(c);
      CheckedTooSoon(env, c, st, x);
      AdmissionMeansToken(env, ids, CheckForNewPeers(env, c, st).node);
    }
  }

  lemma SeenIs(env: Env, n: Node, q: Id, log: Log)
    requires q in n.peers && HasOwnMarker(env, n) && Orderly(n)
    ensures var c := Seen(n.(log := log), Member(q));
            && c == n.(log := log, peers := n.peers[q := Connected]) && HasOwnMarker(env, c) && Orderly(c)
            && HasOwnMarker(env, Seen(n, Member(q)))
  {
  }

  /** A timer of somebody who is relied on already has no place in admission. */
  lemma StaleTimer(env: Env, ids: set<Id>, n: Node, after: Node, x: Id)
    requires x in n.peers && n.peers[x] == Connected && x in n.joinTimers && n.joinTimers <= after.joinTimers
    requires after.peers == n.peers || exists y :: y !in n.peers && after.peers == n.peers[y := Joining]
    ensures !AdmissionInv(env, ids, after) && x in after.peers && after.peers[x] == Connected
  {
    hide Coherent, Placed, Orderly, TokenRight;
    assert x !in Underway(after);
  }

  lemma AdmissionMeansToken(env: Env, ids: set<Id>, n: Node)
    ensures AdmissionInv(env, ids, n) ==> TokenRight(n)
  {
    hide Coherent, Placed, Orderly, TimersRight, TokenRight;
  }

  /** What becomes of a timer that is still armed when its peer, a neighbour by
      now, says it is ready: with somebody waiting, that one is answered, and
      when the timer expires the token is wrong, whether or not others wait. */
  lemma DoubleCompletion(env: Env, n: Node, x: Id, m: Msg, st: Stamps, later: Stamps)
    requires HasOwnMarker(env, n) && Orderly(n) && Underway(n) == {x} && x in n.joinTimers && Waiting(n) != {}
    requires m.ReadyNotif? && !n.log.Logged(m.stamp)
    ensures CanReceive(env, n, Member(x), m, st)
    ensures var n1 := Receive(env, n, Member(x), m, st).node;
            && x in n1.joinTimers && CanCheck(env, Completed(n1, x)) && CanCheck(env, n1)
            && !TokenRight(CompleteJoin(env, n1, x, later).node)
  {
    hide LogMessage, CheckForNewPeers, HasOwnMarker, TokenRight, Waiting, Orderly;
    var log := LogMessage(n, m, Some(x)).log;
    var c := Seen(n.(log := log), Member(x));
    SeenIs(env, n, x, log);
    var n1 := Receive(env, n, Member(x), m, st).node;
    assert n1 == CheckForNewPeers(env, c, st).node;
    SameWaiting(n, c);
    CheckMoves(env, c, st);
    var y :| y in Waiting(c) && y !in c.peers && n1.peers == c.peers[y := Joining];
    var c1 := Completed(n1, x);
    CompletedStays(env, n1, x);
    assert y != x && y in Underway(c1);
    CheckedTooSoon(env, c1, later, y);
  }

  lemma CompletedStays(env: Env, n: Node, x: Id)
    requires x in n.peers && HasOwnMarker(env, n) && Orderly(n)
    ensures HasOwnMarker(env, Completed(n, x)) && Orderly(Completed(n, x))
  {
  }

  // --------------------------------------------------------- stranded

  lemma StrandedStep(env: Env, ids: set<Id>, n: Node, ev: Event)
    requires Stranded(n) && Allowed(env, ids, n, ev) && CanHandle(env, n, ev)
    ensures var o := After(env, n, ev);
            && Stranded(o.node) && o.node.peers == n.peers && Waiting(o.node) == Waiting(n) + Requested(ev)
            && !Completes(ev) && forall x :: Announcements(o.sends, x) == 0
  {
    hide LogMessage, MakeMarker, MarkerFree, HasOwnMarker, Announcements, Waiting, Asked, AnswerJoin, Receive,
      Named, Found;
    var o := After(env, n, ev);
    match ev {
      case Requests(a, m, st) =>
        AskedInGroup(env, n, a, m, st);
        RequestComes(env, n, a, m, st);
        var up := if n.state == Connected then n else Found(env, n, st.groupId);
        FoundIs(env, n, st.groupId);
        SameWaiting(n, up);
        NamedWaits(up, a, m, m.port);
        NamedKeeps(up, a, m, m.port);
        SameWaiting(Named(up, a, m, m.port), o.node);
        StrandedNamed(up, a, m, m.port, o.node);
      case Connects(a) =>
        AcceptWaits(n, a);
      case SendsReady(x, stamp) =>
        SameWaiting(n, o.node);
      case Hears(link, m, st) =>
        HearingOnlyLogs(env, n, link, m, st);
        SameWaiting(n, o.node);
      case _ =>
    }
    forall x
      ensures Announcements(o.sends, x) == 0
    {
      NoAnnouncement(o.sends, x);
    }
  }

  lemma AskedInGroup(env: Env, n: Node, a: Address, m: Msg, st: Stamps)
    requires m.Join? && CanReceive(env, n, Unsorted(a), m, st) && !n.log.Logged(m.stamp)
    ensures if n.state == Connected then HasOwnMarker(env, n) else MarkerFree(env, n, st.groupId)
  {
  }

  lemma StrandedNamed(n: Node, a: Address, m: Msg, port: Port, after: Node)
    requires Stranded(n) && a in n.newPeers && m.Join? && after == Named(n, a, m, port).(log := after.log)
    ensures Stranded(after) && after.peers == n.peers
  {
  }

  lemma StrandedLoss(env: Env, n: Node, p: Id, a: Address)
    requires Stranded(n) && (p in n.peers ==> n.group.Some?)
    ensures var after := HandleDisconnect(env, n, p, a);
            Stranded(after) && after.peers.Keys <= n.peers.Keys && Waiting(after) <= Waiting(n)
  {
    hide View.RemovePeer, View.UpdateNeighbours;
    var after := HandleDisconnect(env, n, p, a);
    assert forall x | x in Underway(after) :: x in Underway(n);
    forall x | x in Waiting(after)
      ensures x in Waiting(n)
    {
      var b :| b in after.newPeers && after.newPeers[b].state != New && after.newPeers[b].id == x;
      assert b in n.newPeers && n.newPeers[b] == after.newPeers[b];
    }
  }

  /** What admission allows, or a disconnection. */
  datatype Turn = Handles(event: Event) | Loses(peer: Id, address: Address)

  ghost predicate CanTurn(env: Env, ids: set<Id>, n: Node, t: Turn) {
    match t
    case Handles(ev) => Allowed(env, ids, n, ev) && CanHandle(env, n, ev)
    case Loses(p, _) => p in n.peers ==> n.group.Some?
  }

  ghost function AfterTurn(env: Env, ids: set<Id>, n: Node, t: Turn): Outcome
    requires CanTurn(env, ids, n, t)
  {
    match t
    case Handles(ev) => After(env, n, ev)
    case Loses(p, a) => Outcome(HandleDisconnect(env, n, p, a), [])
  }

  /** These turns lead from n to end, and everything sent on the way is sent. */
  ghost predicate TurnsLead(env: Env, ids: set<Id>, n: Node, turns: seq<Turn>, end: Node, sent: seq<Sent>)
    decreases |turns|
  {
    if turns == [] then end == n && sent == []
    else
      && CanTurn(env, ids, n, turns[0])
      && var o := AfterTurn(env, ids, n, turns[0]);
         |o.sends| <= |sent| && sent[..|o.sends|] == o.sends
         && TurnsLead(env, ids, o.node, turns[1..], end, sent[|o.sends|..])
  }

  function AskedIn(turns: seq<Turn>): set<Id> {
    if turns == [] then {} else (if turns[0].Handles? then Requested(turns[0].event) else {}) + AskedIn(turns[1..])
  }

  lemma TurnStrands(env: Env, ids: set<Id>, n: Node, t: Turn)
    requires Stranded(n) && CanTurn(env, ids, n, t)
    ensures var o := AfterTurn(env, ids, n, t);
            && Stranded(o.node) && o.node.peers.Keys <= n.peers.Keys
            && Waiting(o.node) <= Waiting(n) + (if t.Handles? then Requested(t.event) else {})
            && (t.Handles? ==> Waiting(o.node) == Waiting(n) + Requested(t.event))
            && forall x :: Announcements(o.sends, x) == 0
  {
    hide Stranded, Allowed, CanHandle, After, HandleDisconnect, Announcements, Waiting, Requested;
    match t
    case Handles(ev) => StrandedStep(env, ids, n, ev);
    case Loses(p, a) =>
      StrandedLoss(env, n, p, a);
      NothingAnnounced();
  }

  lemma NothingAnnounced()
    ensures forall x :: Announcements([], x) == 0
  {
  }

  lemma {:induction false} AnnouncementsAdd(a: seq<Sent>, b: seq<Sent>, x: Id)
    ensures Announcements(a + b, x) == Announcements(a, x) + Announcements(b, x)
    decreases |a|
  {
    if a == [] {
      assert a + b == b;
    } else {
      assert (a + b)[1..] == a[1..] + b;
      AnnouncementsAdd(a[1..], b, x);
    }
  }

  /** A stranded entry point stays so: whatever admission allows and whoever else
      is lost, over every run, nobody is answered or announced, and everyone who
      asks waits until its connection is lost. */
  lemma {:induction false} StrandedForGood(env: Env, ids: set<Id>, n: Node, turns: seq<Turn>, end: Node,
                                           sent: seq<Sent>)
    requires Stranded(n) && TurnsLead(env, ids, n, turns, end, sent)
    ensures Stranded(end) && end.peers.Keys <= n.peers.Keys && Waiting(end) <= Waiting(n) + AskedIn(turns)
    ensures (forall t | t in turns :: t.Handles?) ==> Waiting(end) == Waiting(n) + AskedIn(turns)
    ensures forall x :: Announcements(sent, x) == 0
    decreases |turns|
  {
    hide Stranded, CanTurn, AfterTurn, Announcements, Waiting, Requested;
    if turns == [] {
      NothingAnnounced();
    } else {
      var o := AfterTurn(env, ids, n, turns[0]);
      TurnStrands(env, ids, n, turns[0]);
      var rest := sent[|o.sends|..];
      StrandedForGood(env, ids, o.node, turns[1..], end, rest);
      assert forall t | t in turns[1..] :: t in turns;
      assert sent == o.sends + rest;
      forall x
        ensures Announcements(sent, x) == 0
      {
        AnnouncementsAdd(o.sends, rest, x);
      }
    }
  }

  /** What does free it is a READY_NOTIF from any peer at all: the code does not
      ask whether that peer was the one it waited for. */
  lemma AnyNoticeFrees(env: Env, ids: set<Id>, n: Node, q: Id, m: Msg, st: Stamps)
    requires Idle(env, ids, n) && q in n.peers && n.peers[q] == Connected && m.ReadyNotif? && !n.log.Logged(m.stamp)
    ensures CanReceive(env, n, Member(q), m, st)
    ensures var o := Receive(env, n, Member(q), m, st);
            AdmissionInv(env, ids, o.node) && (o.node.joinToken <==> Waiting(n) == {})
  {
    hide AdmissionInv, Idle, Answers, CheckForNewPeers, CanCheck, Waiting, LogMessage;
    var log := LogMessage(n, m, Some(q)).log;
    assert n.peers[q := Connected] == n.peers;
    IdleLog(env, ids, n, log);
    var c := n.(log := log);
    assert Seen(c, Member(q)) == c && Seen(n, Member(q)) == n;
    Checked(env, ids, c, st);
    Checked(env, ids, n, st);
    SameWaiting(n, c);
    IdleIs(env, ids, c);
    TokenAfter(env, ids, c, CheckForNewPeers(env, c, st));
  }

  lemma IdleLog(env: Env, ids: set<Id>, n: Node, log: Log)
    requires Idle(env, ids, n)
    ensures Idle(env, ids, n.(log := log))
  {
    hide Coherent, KeysDistinct;
    LogKeepsCoherent(env, n, log);
  }

  lemma TokenAfter(env: Env, ids: set<Id>, n: Node, o: Outcome)
    requires Answers(n, o) && AdmissionInv(env, ids, o.node) && Orderly(n)
    ensures o.node.joinToken <==> Waiting(n) == {}
  {
    hide Announcements, Waiting, Coherent, Placed, Orderly, TimersRight;
    var got := o.node.peers.Keys - n.peers.Keys;
    if o.node.joinToken {
      assert got == {};
      OrderlyIsDisjoint(n);
      AnsweredAreNot(n, o);
    } else {
      assert got != {};
    }
  }

  lemma OrderlyIsDisjoint(n: Node)
    requires Orderly(n)
    ensures Waiting(n) !! n.peers.Keys
  {
  }

  lemma AnsweredAreNot(n: Node, o: Outcome)
    requires Answers(n, o) && Waiting(o.node) == {} && o.node.peers.Keys - n.peers.Keys == {}
    requires Waiting(n) !! n.peers.Keys
    ensures Waiting(n) == {}
  {
    hide Announcements, Waiting;
    assert Waiting(n) <= o.node.peers.Keys + Waiting(o.node);
  }
}
