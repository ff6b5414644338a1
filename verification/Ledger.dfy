/** The log across events: it only grows at its end, its counters count the
    copies handled, and it stays readable as long as what is written fits the
    wire. */
module Ledgers {
  import opened Bytes
  import opened Rings
  import opened Groups
  import opened Messages
  import opened Logs
  import opened Nodes

  /** Whatever a holds, b holds with the same text. */
  ghost predicate KeepsTexts(a: Log, b: Log) {
    forall s | s in a.entries :: s in b.entries && b.entries[s].message == a.entries[s].message
  }

  /** b extends a's order of first logging, keeps its texts, and its counters sum
      to `more` above a's. */
  ghost predicate Grown(a: Log, b: Log, more: nat) {
    Indexed(a) && Indexed(b) && a.order <= b.order && KeepsTexts(a, b) && Copies(b) == Copies(a) + more
  }

  lemma LogGrows(n: Node, m: Msg, from: Option<Id>)
    requires Indexed(n.log)
    requires m.IsBroadcast() && !n.log.Logged(m.stamp) ==> Routable(n, m.marker)
    ensures Grown(n.log, LogMessage(n, m, from).log, if from.Some? then 1 else 0)
  {
    hide Indexed, Copies, Serialize;
    var mid := n.log;
    if !n.log.Logged(m.stamp) {
      var c := Expected(n, m);
      mid := n.log.Insert(m, c);
      InsertTotal(n.log, m, c);
      if m.IsBroadcast() {
        ZerosSum(n.group.value.predecessors, n.group.value.predecessors);
        assert c.Keys == n.group.value.predecessors;
      } else {
        assert Sum(c) == 0;
      }
    }
    assert Grown(n.log, mid, 0);
    if from.Some? {
      AckTotal(mid, m.stamp, from.value);
    }
  }

  lemma LogStaysSound(n: Node, m: Msg, from: Option<Id>)
    requires Sound(n.log) && Canonical(m)
    requires m.IsBroadcast() && !n.log.Logged(m.stamp) ==> Routable(n, m.marker)
    ensures Sound(LogMessage(n, m, from).log)
  {
    hide Sound, Serialize, Canonical, Expected;
    var mid := n.log;
    if !n.log.Logged(m.stamp) {
      mid := n.log.Insert(m, Expected(n, m));
      InsertKeepsSound(n.log, m, Expected(n, m));
    }
    if from.Some? {
      AckKeepsSound(mid, m.stamp, from.value);
    }
  }

  /** What a node writes of itself and of a newcomer fits the wire. */
  predicate Fits(n: Node) {
    |n.id| == ID_LENGTH && |n.pubKey| == KEY_LENGTH && (n.group.Some? ==> |n.group.value.id| == GROUP_ID_LENGTH)
  }

  ghost predicate PendingFits(n: Node) {
    forall a | a in n.newPeers && n.newPeers[a].state != New ::
      COLON !in a && |n.newPeers[a].id| == ID_LENGTH && |n.newPeers[a].pubKey| == KEY_LENGTH
  }

  predicate StampsOk(st: Stamps) {
    |st.groupId| == GROUP_ID_LENGTH && |st.first| == MSG_STAMP_LENGTH && |st.second| == MSG_STAMP_LENGTH
  }

  ghost predicate Writes(n: Node, st: Stamps) {
    Sound(n.log) && Fits(n) && PendingFits(n) && StampsOk(st)
  }

  lemma AcknowledgeGrows(env: Env, n: Node, x: Id, asState: PeerState, stamp: Bytes)
    requires n.group.Some? && Indexed(n.log)
    ensures Grown(n.log, AcknowledgeJoin(env, n, x, asState, stamp).node.log, 0)
    ensures Sound(n.log) && Fits(n) && |stamp| == MSG_STAMP_LENGTH ==>
      Sound(AcknowledgeJoin(env, n, x, asState, stamp).node.log)
  {
    hide Sound, Indexed, Copies, LogMessage, View.AddPeer, View.UpdateNeighbours;
    var v := n.group.value.AddPeer(env.key, x).UpdateNeighbours(env.key, n.id);
    IdKept(env.key, n.group.value, x, n.id);
    var taken, ack := n.(peers := n.peers[x := asState], group := Some(v)), JoinAck(stamp, v.id, n.id, n.pubKey);
    LogGrows(taken, ack, None);
    if Sound(n.log) && Fits(n) && |stamp| == MSG_STAMP_LENGTH {
      LogStaysSound(taken, ack, None);
    }
  }

  lemma AnswerGrows(env: Env, n: Node, a: Address, port: Port, st: Stamps)
    requires HasOwnMarker(env, n) && a in n.newPeers && Indexed(n.log)
    ensures Grown(n.log, AnswerJoin(env, n, a, port, st).node.log, 0)
    ensures Writes(n, st) && n.newPeers[a].state != New ==> Sound(AnswerJoin(env, n, a, port, st).node.log)
  {
    hide Sound, Indexed, Copies, LogMessage, AcknowledgeJoin;
    var gid, x := n.group.value.id, n.newPeers[a];
    var notif := JoinNotif(st.first, MakeMarker(env.h, gid, gid), false, gid, x.id, x.pubKey, a, port);
    var free := n.(joinToken := false);
    LogGrows(free, notif, None);
    var told := Broadcast(free, notif).node;
    AcknowledgeGrows(env, told.(newPeers := told.newPeers - {a}), x.id, x.state, st.second);
    if Writes(n, st) && x.state != New {
      LogStaysSound(free, notif, None);
    }
  }

  lemma CheckGrows(env: Env, n: Node, st: Stamps)
    requires CanCheck(env, n) && Indexed(n.log)
    ensures Grown(n.log, CheckForNewPeers(env, n, st).node.log, 0)
    ensures Writes(n, st) ==> Sound(CheckForNewPeers(env, n, st).node.log)
  {
    hide Sound, Indexed, Copies, AnswerJoin;
    forall a | FirstKnown(n.newPeers, a)
      ensures var log := AnswerJoin(env, n, a, n.newPeers[a].port, st).node.log;
              Grown(n.log, log, 0) && (Writes(n, st) ==> Sound(log))
    {
      AnswerGrows(env, n, a, n.newPeers[a].port, st);
    }
    assert Indexed(n.log) ==> Grown(n.log, n.log, 0) by { assert n.log.order <= n.log.order; }
  }

  // ------------------------------------------------ what is in the log

  /** A canonical message that is logged for the first time can be read back from
      its entry, whatever the reader's port variable held. */
  lemma LoggedReadsBack(n: Node, m: Msg, from: Option<Id>, before: Port)
    requires Canonical(m) && !n.log.Logged(m.stamp)
    requires m.IsBroadcast() ==> Routable(n, m.marker)
    ensures var log := LogMessage(n, m, from).log;
            log.Logged(m.stamp) && Parse(log.entries[m.stamp].message, before) == Success(m)
  {
    hide Parse, Serialize, Canonical, Credit, Zeros;
    RoundTrip(m, before);
  }

  function MessagesIn(sends: seq<Sent>): set<Msg> {
    set s | s in sends :: s.message
  }

  /** What b holds and a does not are the texts of some of these messages, each
      under its stamp; and of those written none is missing. */
  ghost predicate Files(a: Log, b: Log, handled: set<Msg>, written: set<Msg>) {
    && (forall s | s in b.entries && s !in a.entries ::
      exists m :: m in handled && m.stamp == s && b.entries[s].message == Serialize(m))
    && forall m | m in written :: m.stamp in b.entries
  }

  lemma FilesThen(a: Log, b: Log, c: Log, h: set<Msg>, w: set<Msg>, k: set<Msg>, v: set<Msg>)
    requires Files(a, b, h, w) && Files(b, c, k, v) && KeepsTexts(b, c)
    ensures Files(a, c, h + k, w + v)
  {
    hide Serialize;
    forall s | s in c.entries && s !in a.entries
      ensures exists m :: m in h + k && m.stamp == s && c.entries[s].message == Serialize(m)
    {
      if s in b.entries {
        var m :| m in h && m.stamp == s && b.entries[s].message == Serialize(m);
        assert m in h + k;
      } else {
        var m :| m in k && m.stamp == s && c.entries[s].message == Serialize(m);
        assert m in h + k;
      }
    }
  }

  lemma FilesMore(a: Log, b: Log, h: set<Msg>, w: set<Msg>, k: set<Msg>)
    requires Files(a, b, h, w) && h <= k
    ensures Files(a, b, k, w)
  {
    hide Serialize;
    forall s | s in b.entries && s !in a.entries
      ensures exists m :: m in k && m.stamp == s && b.entries[s].message == Serialize(m)
    {
      var m :| m in h && m.stamp == s && b.entries[s].message == Serialize(m);
      assert m in k;
    }
  }

  lemma LogFiles(n: Node, m: Msg, from: Option<Id>)
    requires m.IsBroadcast() && !n.log.Logged(m.stamp) ==> Routable(n, m.marker)
    ensures var log := LogMessage(n, m, from).log; Files(n.log, log, {m}, {m}) && KeepsTexts(n.log, log)
  {
    hide Serialize, Credit, Zeros;
  }

  lemma SentTogether(a: seq<Sent>, b: seq<Sent>)
    ensures MessagesIn(a + b) == MessagesIn(a) + MessagesIn(b) && MessagesIn([]) == {}
  {
    assert forall s :: s in a + b <==> s in a || s in b;
  }

  lemma OneSent(m: Msg, to: set<Id>)
    ensures MessagesIn([Sent(m, to)]) == {m}
  {
    assert Sent(m, to) in [Sent(m, to)];
  }

  lemma AcknowledgeFiles(env: Env, n: Node, x: Id, asState: PeerState, stamp: Bytes)
    requires n.group.Some?
    ensures var o := AcknowledgeJoin(env, n, x, asState, stamp);
            && Files(n.log, o.node.log, MessagesIn(o.sends), MessagesIn(o.sends)) && KeepsTexts(n.log, o.node.log)
  {
    hide LogMessage, View.AddPeer, View.UpdateNeighbours, Files, KeepsTexts;
    var v := n.group.value.AddPeer(env.key, x).UpdateNeighbours(env.key, n.id);
    var taken, ack := n.(peers := n.peers[x := asState], group := Some(v)), JoinAck(stamp, v.id, n.id, n.pubKey);
    LogFiles(taken, ack, None);
    OneSent(ack, {x});
  }

  lemma AnswerFiles(env: Env, n: Node, a: Address, port: Port, st: Stamps)
    requires HasOwnMarker(env, n) && a in n.newPeers
    ensures var o := AnswerJoin(env, n, a, port, st);
            && Files(n.log, o.node.log, MessagesIn(o.sends), MessagesIn(o.sends)) && KeepsTexts(n.log, o.node.log)
  {
    hide LogMessage, AcknowledgeJoin, Files, MakeMarker, MessagesIn;
    var gid, x := n.group.value.id, n.newPeers[a];
    var notif := JoinNotif(st.first, MakeMarker(env.h, gid, gid), false, gid, x.id, x.pubKey, a, port);
    var free := n.(joinToken := false);
    LogFiles(free, notif, None);
    var told := Broadcast(free, notif);
    OneSent(notif, n.group.value.successors);
    var asked := told.node.(newPeers := told.node.newPeers - {a});
    AcknowledgeFiles(env, asked, x.id, x.state, st.second);
    var acked := AcknowledgeJoin(env, asked, x.id, x.state, st.second);
    SentTogether(told.sends, acked.sends);
    FilesThen(n.log, asked.log, acked.node.log, {notif}, {notif}, MessagesIn(acked.sends), MessagesIn(acked.sends));
  }

  lemma NothingFiled(a: Log)
    ensures Files(a, a, MessagesIn([]), MessagesIn([])) && KeepsTexts(a, a)
  {
  }

  lemma CheckFiles(env: Env, n: Node, st: Stamps)
    requires CanCheck(env, n)
    ensures var o := CheckForNewPeers(env, n, st);
            && Files(n.log, o.node.log, MessagesIn(o.sends), MessagesIn(o.sends)) && KeepsTexts(n.log, o.node.log)
  {
    hide AnswerJoin, Files, KeepsTexts, MessagesIn;
    forall a | FirstKnown(n.newPeers, a)
      ensures var o := AnswerJoin(env, n, a, n.newPeers[a].port, st);
              && Files(n.log, o.node.log, MessagesIn(o.sends), MessagesIn(o.sends)) && KeepsTexts(n.log, o.node.log)
    {
      AnswerFiles(env, n, a, n.newPeers[a].port, st);
    }
    NothingFiled(n.log);
  }

  /** How often the copy at hand is counted while it is processed: the requests
      and acknowledgements of the JOIN procedure log themselves once more. */
  function CountedAgain(m: Msg): nat {
    if m.Join? || m.JoinAck? then 1 else 0
  }

  /** Nobody nameless is admitted, and the message itself can be written. */
  ghost predicate Writable(n: Node, link: Link, m: Msg, st: Stamps)
    requires LinkOk(n, link)
  {
    && Writes(n, st) && Canonical(m)
    && (m.Join? && link.Unsorted? ==> COLON !in link.address) && (m.ReadyNotif? ==> Known(n, link))
  }

  lemma JoinGrows(env: Env, n: Node, link: Link, m: Msg, st: Stamps)
    requires CanProcess(env, n, link, m, st) && Indexed(n.log) && m.Join?
    ensures Grown(n.log, Process(env, n, link, m, st).node.log, 1)
    ensures Writable(n, link, m, st) ==> Sound(Process(env, n, link, m, st).node.log)
  {
    hide Sound, Indexed, Copies, LogMessage, AnswerJoin, MakeMarker, View.AddToRings;
    var a := link.address;
    var up := if n.state != Connected then Found(env, n, st.groupId) else n;
    IdKept(env.key, EmptyView(st.groupId), n.id, n.id);
    var named := up.(newPeers := up.newPeers[a := up.newPeers[a].(id := m.id, pubKey := m.pubKey, state := Joining)]);
    LogGrows(named, m, Some(m.id));
    var logged := LogMessage(named, m, Some(m.id));
    if Writable(n, link, m, st) {
      LogStaysSound(named, m, Some(m.id));
    }
    if logged.joinToken {
      AnswerGrows(env, logged, a, m.port, st);
    }
  }

  lemma JoinAckGrows(env: Env, n: Node, link: Link, m: Msg, st: Stamps)
    requires CanProcess(env, n, link, m, st) && Indexed(n.log) && m.JoinAck?
    ensures Grown(n.log, Process(env, n, link, m, st).node.log, 1)
    ensures Writable(n, link, m, st) ==> Sound(Process(env, n, link, m, st).node.log)
  {
    hide Sound, Indexed, Copies, LogMessage, MakeMarker, View.AddPeer;
    var based :=
      if n.group.Some? then n
      else n.(group := Some(EmptyView(m.groupId)),
              markers := WithMarker(env, n.markers, m.groupId));
    var taken := based.(newPeers := based.newPeers - {link.address},
                        peers := based.peers[m.peerId := Connected],
                        group := Some(based.group.value.AddPeer(env.key, m.peerId)));
    LogGrows(taken, m, Some(m.peerId));
    if Writable(n, link, m, st) {
      LogStaysSound(taken, m, Some(m.peerId));
    }
  }

  lemma ProcessGrows(env: Env, n: Node, link: Link, m: Msg, st: Stamps)
    requires CanProcess(env, n, link, m, st) && Indexed(n.log)
    ensures Grown(n.log, Process(env, n, link, m, st).node.log, CountedAgain(m))
    ensures Writable(n, link, m, st) ==> Sound(Process(env, n, link, m, st).node.log)
  {
    hide Sound, Indexed, Copies, LogMessage, AcknowledgeJoin, CheckForNewPeers, MakeMarker,
      View.AddPeer, View.AddToRings, View.UpdateNeighbours;
    match m
    case Join(_, id, pubKey, port) => JoinGrows(env, n, link, m, st);
    case JoinNotif(_, _, _, _, peerId, _, _, _) =>
      if Admits(n, m) {
        AcknowledgeGrows(env, n.(joinToken := false), peerId, Joining, st.first);
      }
    case JoinAck(_, groupId, peerId, _) => JoinAckGrows(env, n, link, m, st);
    case Ready(_) =>
      if n.group.Some? && n.state != Connected {
        var v := n.group.value.AddToRings(env.key, n.id).UpdateNeighbours(env.key, n.id);
        var placed := n.(state := Connected, group := Some(v));
        LogGrows(placed, ReadyNotif(st.first), None);
        if Writable(n, link, m, st) {
          LogStaysSound(placed, ReadyNotif(st.first), None);
        }
      }
    case ReadyNotif(_) =>
      CheckGrows(env, Seen(n, link), st);
    case Data(_, _, _) =>
  }

  lemma LogIsIrrelevant(env: Env, n: Node, log: Log, link: Link, m: Msg, st: Stamps)
    ensures CanProcess(env, n.(log := log), link, m, st) <==> CanProcess(env, n, link, m, st)
  {
  }

  lemma RelayGrows(n: Node, link: Link, m: Msg)
    requires LinkOk(n, link) && CanRoute(n, link, m) && Indexed(n.log)
    ensures Grown(n.log, Relay(n, link, m).node.log, if Known(n, link) then 1 else 0)
    ensures Sound(n.log) && Canonical(m) ==> Sound(Relay(n, link, m).node.log)
  {
    hide Sound, Indexed, Copies, LogMessage, Canonical;
    var credited := if Known(n, link) then LogMessage(n, m, Some(EmitterId(n, link))) else n;
    if Known(n, link) {
      LogGrows(n, m, Some(EmitterId(n, link)));
    }
    if m.IsBroadcast() && m.marker in n.markers {
      LogGrows(credited, m, None);
    }
    if Sound(n.log) && Canonical(m) {
      if Known(n, link) {
        LogStaysSound(n, m, Some(EmitterId(n, link)));
      }
      if m.IsBroadcast() && m.marker in n.markers {
        LogStaysSound(credited, m, None);
      }
    }
  }

  lemma JoinFiles(env: Env, n: Node, link: Link, m: Msg, st: Stamps)
    requires CanProcess(env, n, link, m, st) && m.Join?
    ensures var o := Process(env, n, link, m, st);
            && Files(n.log, o.node.log, {m} + MessagesIn(o.sends), MessagesIn(o.sends))
            && KeepsTexts(n.log, o.node.log)
  {
    hide LogMessage, AnswerJoin, MakeMarker, View.AddToRings, Files, MessagesIn;
    SentTogether([], []);
    var o, a := Process(env, n, link, m, st), link.address;
    var up := if n.state != Connected then Found(env, n, st.groupId) else n;
    IdKept(env.key, EmptyView(st.groupId), n.id, n.id);
    var named := up.(newPeers := up.newPeers[a := up.newPeers[a].(id := m.id, pubKey := m.pubKey, state := Joining)]);
    LogFiles(named, m, Some(m.id));
    var logged := LogMessage(named, m, Some(m.id));
    FilesLess(n.log, logged.log, {m}, {m}, {});
    if logged.joinToken {
      AnswerFiles(env, logged, a, m.port, st);
      FilesThen(n.log, logged.log, o.node.log, {m}, {}, MessagesIn(o.sends), MessagesIn(o.sends));
      assert {} + MessagesIn(o.sends) == MessagesIn(o.sends);
    } else {
      FilesMore(n.log, o.node.log, {m}, {}, {m} + MessagesIn(o.sends));
    }
  }

  lemma ProcessFiles(env: Env, n: Node, link: Link, m: Msg, st: Stamps)
    requires CanProcess(env, n, link, m, st)
    ensures var o := Process(env, n, link, m, st);
            && Files(n.log, o.node.log, {m} + MessagesIn(o.sends), MessagesIn(o.sends))
            && KeepsTexts(n.log, o.node.log)
  {
    hide LogMessage, AnswerJoin, AcknowledgeJoin, CheckForNewPeers, MakeMarker, View.AddPeer, View.AddToRings,
      View.UpdateNeighbours, Files, MessagesIn;
    NothingFiled(n.log);
    SentTogether([], []);
    var o := Process(env, n, link, m, st);
    match m
    case Join(_, id, pubKey, port) => JoinFiles(env, n, link, m, st);
    case JoinNotif(_, _, _, _, peerId, _, _, _) =>
      if Admits(n, m) {
        AcknowledgeFiles(env, n.(joinToken := false), peerId, Joining, st.first);
      }
      FilesMore(n.log, o.node.log, MessagesIn(o.sends), MessagesIn(o.sends), {m} + MessagesIn(o.sends));
    case JoinAck(_, groupId, peerId, _) =>
      var based :=
        if n.group.Some? then n
        else n.(group := Some(EmptyView(groupId)), markers := WithMarker(env, n.markers, groupId));
      var taken := based.(newPeers := based.newPeers - {link.address},
                          peers := based.peers[peerId := Connected],
                          group := Some(based.group.value.AddPeer(env.key, peerId)));
      LogFiles(taken, m, Some(peerId));
      FilesLess(n.log, o.node.log, {m}, {m}, {});
      FilesMore(n.log, o.node.log, {m}, {}, {m} + MessagesIn(o.sends));
    case Ready(_) =>
      if n.group.Some? && n.state != Connected {
        var v := n.group.value.AddToRings(env.key, n.id).UpdateNeighbours(env.key, n.id);
        LogFiles(n.(state := Connected, group := Some(v)), ReadyNotif(st.first), None);
        OneSent(ReadyNotif(st.first), v.predecessors + v.successors);
      }
      FilesMore(n.log, o.node.log, MessagesIn(o.sends), MessagesIn(o.sends), {m} + MessagesIn(o.sends));
    case ReadyNotif(_) =>
      CheckFiles(env, Seen(n, link), st);
      FilesMore(n.log, o.node.log, MessagesIn(o.sends), MessagesIn(o.sends), {m} + MessagesIn(o.sends));
    case Data(_, _, _) =>
      FilesMore(n.log, o.node.log, MessagesIn(o.sends), MessagesIn(o.sends), {m} + MessagesIn(o.sends));
  }

  lemma FilesLess(a: Log, b: Log, h: set<Msg>, w: set<Msg>, v: set<Msg>)
    requires Files(a, b, h, w) && v <= w
    ensures Files(a, b, h, v)
  {
    hide Serialize;
  }

  lemma RelayFiles(n: Node, link: Link, m: Msg)
    requires LinkOk(n, link) && CanRoute(n, link, m)
    ensures var o := Relay(n, link, m);
            && Files(n.log, o.node.log, {m}, MessagesIn(o.sends)) && KeepsTexts(n.log, o.node.log)
            && MessagesIn(o.sends) <= {m}
  {
    hide LogMessage, Files, MessagesIn;
    NothingFiled(n.log);
    SentTogether([], []);
    FilesMore(n.log, n.log, {}, {}, {m});
    var credited := if Known(n, link) then LogMessage(n, m, Some(EmitterId(n, link))) else n;
    if Known(n, link) {
      LogFiles(n, m, Some(EmitterId(n, link)));
      FilesLess(n.log, credited.log, {m}, {m}, {});
    }
    if m.IsBroadcast() && m.marker in n.markers {
      LogFiles(credited, m, None);
      OneSent(m, credited.group.value.successors);
      FilesThen(n.log, credited.log, LogMessage(credited, m, None).log, {m}, {}, {m}, {m});
      assert {m} + {m} == {m} && {} + {m} == {m};
    }
  }

  /** The history is genuine: what handling a message adds to the log is the text
      of that message, or of one written in reply; all that is written is logged;
      and what was logged before is not touched. */
  lemma ReceiveFiles(env: Env, n: Node, link: Link, m: Msg, st: Stamps)
    requires CanReceive(env, n, link, m, st)
    ensures var o := Receive(env, n, link, m, st);
            && Files(n.log, o.node.log, {m} + MessagesIn(o.sends), MessagesIn(o.sends))
            && KeepsTexts(n.log, o.node.log)
  {
    hide Relay, Process, MessagesIn, Files;
    var o := Receive(env, n, link, m, st);
    NothingFiled(n.log);
    SentTogether([], []);
    if n.log.Logged(m.stamp) {
      OnlyCounted(n.log, o.node.log);
      FilesMore(n.log, o.node.log, {}, {}, {m} + MessagesIn(o.sends));
    } else {
      var told := Relay(n, link, m);
      RelayFiles(n, link, m);
      LogIsIrrelevant(env, n, told.node.log, link, m, st);
      ProcessFiles(env, told.node, link, m, st);
      var done := Process(env, told.node, link, m, st);
      SentTogether(told.sends, done.sends);
      FilesThen(n.log, told.node.log, done.node.log, {m}, MessagesIn(told.sends), {m} + MessagesIn(done.sends),
                MessagesIn(done.sends));
      FilesMore(n.log, o.node.log, {m} + ({m} + MessagesIn(done.sends)), MessagesIn(o.sends),
                {m} + MessagesIn(o.sends));
    }
  }

  lemma OnlyCounted(a: Log, b: Log)
    requires b.entries.Keys == a.entries.Keys
    ensures Files(a, b, {}, {})
  {
  }

  /** By how much handling one copy raises the counters: a copy seen before
      counts once; a new one counts once if the emitter is known already, and
      once again if it is a request or an acknowledgement. */
  function Counted(n: Node, link: Link, m: Msg): nat
    requires LinkOk(n, link)
  {
    if n.log.Logged(m.stamp) then 1 else (if Known(n, link) then 1 else 0) + CountedAgain(m)
  }

  /** The copy was seen before, or requests and acknowledgements come from a peer
      not yet identified and everything else from an identified one. */
  predicate Proper(n: Node, link: Link, m: Msg)
    requires LinkOk(n, link)
  {
    n.log.Logged(m.stamp) || (Known(n, link) <==> !(m.Join? || m.JoinAck?))
  }

  /** Counting is exact whatever arrives and whoever sends it, and a copy counts
      exactly once if and only if it is proper. */
  lemma ReceiveCounts(env: Env, n: Node, link: Link, m: Msg, st: Stamps)
    requires CanReceive(env, n, link, m, st) && Indexed(n.log)
    ensures Grown(n.log, Receive(env, n, link, m, st).node.log, Counted(n, link, m))
    ensures Counted(n, link, m) == 1 <==> Proper(n, link, m)
  {
    hide Indexed, Copies, Relay, Process, Grown;
    if n.log.Logged(m.stamp) {
      AckGrows(n.log, m.stamp, EmitterId(n, link));
    } else {
      RelayGrows(n, link, m);
      var told := Relay(n, link, m).node;
      GrownIsIndexed(n.log, told.log, if Known(n, link) then 1 else 0);
      ProcessGrows(env, told, link, m, st);
      GrownThen(n.log, told.log, Process(env, told, link, m, st).node.log, if Known(n, link) then 1 else 0,
                CountedAgain(m));
    }
  }

  lemma AckGrows(log: Log, stamp: Bytes, from: Id)
    requires Indexed(log) && log.Logged(stamp)
    ensures Grown(log, log.Ack(stamp, from), 1)
  {
    hide Indexed, Copies;
    AckTotal(log, stamp, from);
  }

  lemma GrownIsIndexed(a: Log, b: Log, more: nat)
    requires Grown(a, b, more)
    ensures Indexed(b)
  {
  }

  lemma GrownThen(a: Log, b: Log, c: Log, more: nat, still: nat)
    requires Grown(a, b, more) && Grown(b, c, still)
    ensures Grown(a, c, more + still)
  {
    hide Indexed, Copies;
  }

  /** The log stays readable as long as nobody nameless is admitted. */
  lemma ReceiveStaysSound(env: Env, n: Node, link: Link, m: Msg, st: Stamps)
    requires CanReceive(env, n, link, m, st) && Writes(n, st) && Canonical(m)
    requires m.Join? && link.Unsorted? ==> COLON !in link.address
    requires m.ReadyNotif? && !n.log.Logged(m.stamp) ==> Known(n, link)
    ensures Sound(Receive(env, n, link, m, st).node.log)
  {
    hide Sound, Copies, Relay, Process, Canonical;
    if n.log.Logged(m.stamp) {
      AckKeepsSound(n.log, m.stamp, EmitterId(n, link));
    } else {
      assert Indexed(n.log) by { SoundIsIndexed(n.log); }
      RelayGrows(n, link, m);
      var told := Relay(n, link, m).node;
      SoundIsIndexed(told.log);
      ProcessGrows(env, told, link, m, st);
    }
  }

  lemma SoundIsIndexed(log: Log)
    requires Sound(log)
    ensures Indexed(log)
  {
  }
}
