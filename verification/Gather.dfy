/** Any number of overlapping joins: every run, and where it ends. */
module Gatherings {
  import opened Bytes
  import opened Rings
  import opened Groups
  import opened Messages
  import opened Logs
  import opened Nodes
  import opened Invariants
  import opened Floods
  import opened Systems
  import opened Joins
  import opened JoinWorlds
  import opened JoinStarts
  import opened Arrears
  import opened Overlaps
  import Admissions
  import Lifecycles

  // -------------------------------------------------------- every run

  datatype Via = ByRequest(stamp: Bytes) | ByNotice | ByTimer

  /** A step of the join under way; a late READY_NOTIF or timer of an earlier
      one; a request that has to wait; or the answer that begins the next. */
  datatype Move =
    | Takes(step: Step)
    | Hears(late: Id, member: Id)
    | Expires(late: Id, member: Id)
    | Waits(address: Address, request: Msg, stamps: Stamps)
    | Begins(next: Plan, newcomer: Node, via: Via)

  ghost predicate Shaped(s: Stage) {
    && s.plan.acks.Keys == s.plan.members && s.world.nodes.Keys == s.plan.Everyone()
    && s.plan.entry in s.plan.members && s.plan.entry in s.world.nodes && s.plan.newcomer in s.world.nodes
  }

  /** The next join begins where, and when, the code would answer: the newcomer
      before has taken its place, and the entry point relies on it. */
  ghost predicate Due(s: Stage, mv: Move)
    requires Shaped(s)
  {
    match mv
    case Takes(step) =>
      Enabled(s.plan, s.world, step) && (step.Arrives? ==> Planned(s.plan, step.message)) && !HandsOn(s, step)
    case Hears(y, p) =>
      y in s.past && p in s.plan.members && Edge(y, p) in TrafficOf(s.world.net, s.past[y]).copies
    case Expires(y, p) =>
      p in s.plan.members && y in s.world.nodes[p].joinTimers && y != s.plan.newcomer
    case Waits(a, m, st) => Asks(s, a, m)
    case Begins(next, newcomer, via) =>
      && TookPlace(s) && Fits(s, next) && Caller(next, newcomer)
      && match via
         case ByRequest(stamp) => FreeToAnswer(s, next, stamp)
         case ByNotice =>
           NextInLine(s, next)
           && Edge(s.plan.newcomer, s.plan.entry) in TrafficOf(s.world.net, s.plan.readyNotif).copies
         case ByTimer => NextInLine(s, next) && s.plan.newcomer in s.world.nodes[s.plan.entry].joinTimers
  }

  /** And what the handler needs so as not to fail. */
  ghost predicate CanMove(s: Stage, mv: Move)
    requires Shaped(s)
  {
    && Due(s, mv)
    && match mv
       case Takes(step) => CanStep(s.plan, s.world, step)
       case Hears(y, p) =>
         s.past[y] in s.world.net
         && CanReceive(s.plan.env, s.world.nodes[p], Member(y), s.past[y], s.plan.StampsAt(p))
       case Expires(y, p) => CanCheck(s.plan.env, s.world.nodes[p])
       case Waits(a, m, st) => CanReceive(s.plan.env, Accept(s.world.nodes[s.plan.entry], a), Unsorted(a), m, st)
       case Begins(next, newcomer, via) =>
         && next.entry in next.acks && next.entry in s.world.nodes && next.newcomer in next.addresses
         && next.notif.JoinNotif?
         && var n, a := s.world.nodes[next.entry], next.addresses[next.newcomer];
            match via
            case ByRequest(stamp) =>
              CanReceive(next.env, Accept(n, a), Unsorted(a), Request(next, stamp), AnswerStamps(next))
            case ByNotice =>
              s.plan.readyNotif in s.world.net
              && CanReceive(next.env, n, Member(s.plan.newcomer), s.plan.readyNotif, AnswerStamps(next))
            case ByTimer => CanCheck(next.env, n)
  }

  /** The handler's outcome at p. */
  ghost function Handled(s: Stage, p: Id, net: Net, o: Outcome): Stage {
    s.(world := World(s.world.nodes[p := o.node], PostAll(net, p, o.sends)))
  }

  ghost function AfterMove(s: Stage, mv: Move): Stage
    requires Shaped(s) && CanMove(s, mv)
  {
    var pl, w := s.plan, s.world;
    match mv
    case Takes(step) => s.(world := JoinWorlds.After(pl, w, step))
    case Hears(y, p) =>
      Handled(s, p, Take(w.net, s.past[y], Edge(y, p)),
              Receive(pl.env, w.nodes[p], Member(y), s.past[y], pl.StampsAt(p)))
    case Expires(y, p) => Handled(s, p, w.net, CompleteJoin(pl.env, w.nodes[p], y, pl.StampsAt(p)))
    case Waits(a, m, st) =>
      Handled(s, pl.entry, w.net, Receive(pl.env, Accept(w.nodes[pl.entry], a), Unsorted(a), m, st))
    case Begins(next, newcomer, via) =>
      var n, a := w.nodes[next.entry], next.addresses[next.newcomer];
      var after :=
        match via
        case ByRequest(stamp) =>
          Answering(next, w, newcomer,
                    Receive(next.env, Accept(n, a), Unsorted(a), Request(next, stamp), AnswerStamps(next)))
        case ByNotice =>
          Answering(next, World(w.nodes, Take(w.net, pl.readyNotif, Edge(pl.newcomer, pl.entry))), newcomer,
                    Receive(next.env, n, Member(pl.newcomer), pl.readyNotif, AnswerStamps(next)))
        case ByTimer =>
          Answering(next, w, newcomer, CompleteJoin(next.env, n, pl.newcomer, AnswerStamps(next)));
      Stage(next, NextPast(s), after)
  }

  /** Who has joined, is joining, or waits. */
  ghost function Gathered(s: Stage): set<Id>
    requires Shaped(s)
  {
    s.plan.Everyone() + Admissions.Waiting(s.world.nodes[s.plan.entry])
  }

  function Called(mv: Move): set<Id> {
    match mv
    case Waits(a, m, st) => if m.Join? then {m.id} else {}
    case Begins(next, newcomer, via) => if via.ByRequest? then {next.newcomer} else {}
    case _ => {}
  }

  lemma StageIsShaped(s: Stage)
    requires InOrder(s)
    ensures Shaped(s)
  {
    hide InOrder, JoinInv, PlanOk, PaidWorld, MemberOk, NewcomerOk, Lagging;
    StageParts(s);
  }

  lemma BeginKeepsOrder(s: Stage, mv: Move)
    requires InOrder(s) && Shaped(s) && Due(s, mv) && mv.Begins?
    ensures CanMove(s, mv) && Opened(s, mv.next, AfterMove(s, mv).world)
    ensures Shaped(AfterMove(s, mv)) && Gathered(AfterMove(s, mv)) == Gathered(s) + Called(mv)
  {
    hide InOrder, PlanOk, Caller, Fits, NextInLine, FreeToAnswer, TookPlace, TrafficOf, Receive, CanReceive,
      CompleteJoin, CanCheck, Opened, Answering, NextPast, Admissions.Waiting;
    var next, newcomer := mv.next, mv.newcomer;
    FitsIs(s, next);
    match mv.via {
      case ByRequest(stamp) =>
        RequestOpens(s, next, newcomer, stamp);
        NobodyWaited(s, next, stamp);
      case ByNotice =>
        NextEntryIs(s, next);
        NoticeOpens(s, next, newcomer);
      case ByTimer =>
        NextEntryIs(s, next);
        TimerOpens(s, next, newcomer);
    }
    OpenedIs(s, next, AfterMove(s, mv).world);
  }

  lemma NobodyWaited(s: Stage, next: Plan, stamp: Bytes)
    requires s.world.nodes.Keys == s.plan.Everyone() && Fits(s, next) && FreeToAnswer(s, next, stamp)
    requires s.plan.entry in s.world.nodes
    ensures Admissions.Waiting(s.world.nodes[s.plan.entry]) == {}
  {
    hide PlanOk, Fits;
    NobodyWaiting(s.world.nodes[s.plan.entry]);
  }

  lemma NextEntryIs(s: Stage, next: Plan)
    requires s.world.nodes.Keys == s.plan.Everyone() && Fits(s, next) && s.plan.entry in s.world.nodes
    requires NextInLine(s, next)
    ensures next.entry == s.plan.entry && next.newcomer in Admissions.Waiting(s.world.nodes[s.plan.entry])
  {
    hide PlanOk, Fits;
  }

  lemma OpenedIs(s: Stage, next: Plan, after: World)
    requires Shaped(s) && Fits(s, next) && Opened(s, next, after)
    ensures Shaped(Stage(next, NextPast(s), after)) && InOrder(Stage(next, NextPast(s), after))
    ensures next.Everyone() == s.plan.Everyone() + {next.newcomer}
    ensures Admissions.Waiting(after.nodes[next.entry])
            == Admissions.Waiting(s.world.nodes[s.plan.entry]) - {next.newcomer}
  {
    hide PlanOk, InOrder, Admissions.Waiting, Fits, PaidWorld;
    StageIsShaped(Stage(next, NextPast(s), after));
  }

  lemma TakesGathers(s: Stage, step: Step)
    requires InOrder(s) && Shaped(s) && Due(s, Takes(step))
    ensures CanMove(s, Takes(step)) && InOrder(AfterMove(s, Takes(step))) && Shaped(AfterMove(s, Takes(step)))
    ensures Gathered(AfterMove(s, Takes(step))) == Gathered(s)
  {
    hide InOrder, PlanOk, Enabled, CanStep, JoinWorlds.After, Planned, Advances, Admissions.Waiting, HandsOn,
      SameArrears;
    StepKeepsOrder(s, step);
    var after := AfterMove(s, Takes(step));
    StageIsShaped(after);
    OthersStay(s.plan, s.past, s.world, after.world);
    Admissions.SameWaiting(s.world.nodes[s.plan.entry], after.world.nodes[s.plan.entry]);
  }

  /** Whatever is due can be handled and leaves everything in order; and nobody
      who called is lost. */
  lemma MoveKeepsOrder(s: Stage, mv: Move)
    requires InOrder(s) && Shaped(s) && Due(s, mv)
    ensures CanMove(s, mv) && InOrder(AfterMove(s, mv)) && Shaped(AfterMove(s, mv))
    ensures Gathered(AfterMove(s, mv)) == Gathered(s) + Called(mv)
  {
    hide InOrder, PlanOk, TrafficOf, Receive, CanReceive, CompleteJoin, CanCheck, NextPast, Admissions.Waiting, Opened,
      Owed, Settles, PaidWorld, Remaining, Relying;
    match mv {
      case Takes(step) => TakesGathers(s, step);
      case Hears(y, p) =>
        LateNotice(s, y, p);
        DebtorIs(s, p, y);
        LateNoticeKeepsOrder(s, y, p);
      case Expires(y, p) =>
        LateTimer(s, y, p);
        DebtorIs(s, p, y);
        var n := s.world.nodes[p];
        SettlingKeepsOrder(s, p, y, n.log, n.joinTimers - {y}, s.world.net);
      case Waits(a, m, st) =>
        AskingKeepsOrder(s, a, m, st);
      case Begins(next, newcomer, via) =>
        BeginKeepsOrder(s, mv);
        OpenedIs(s, next, AfterMove(s, mv).world);
    }
    StageIsShaped(AfterMove(s, mv));
  }

  // ------------------------------------------------------ coming to rest

  predicate IsWork(mv: Move) { mv.Takes? || mv.Hears? || mv.Expires? }

  /** Nothing arrives and no timer is armed, but perhaps at the entry point, for
      the answer to whoever waits. */
  ghost predicate Stalled(s: Stage)
    requires Shaped(s)
  {
    forall mv | IsWork(mv) :: !Due(s, mv)
  }

  /** The entry point only needs to hear of its newcomer to answer the next. */
  ghost predicate AnswerDue(s: Stage)
    requires Shaped(s)
  {
    && TookPlace(s) && Admissions.Waiting(s.world.nodes[s.plan.entry]) != {}
    && (Edge(s.plan.newcomer, s.plan.entry) in TrafficOf(s.world.net, s.plan.readyNotif).copies
        || s.plan.newcomer in s.world.nodes[s.plan.entry].joinTimers)
  }

  lemma EnabledThere(s: Stage, step: Step)
    requires InOrder(s) && Shaped(s) && Enabled(s.plan, PaidWorld(s.plan, s.world), step)
    ensures Enabled(s.plan, s.world, step) && (step.Arrives? ==> Planned(s.plan, step.message))
  {
    hide InOrder, JoinInv, PlanOk, MemberOk, NewcomerOk, Lagging, Drained, Planned, PeersKnown, OnlyPlanned;
    StageParts(s);
    var pl, w := s.plan, s.world;
    match step
    case Arrives(m, e) =>
      PlannedTraffic(pl, w.net, m);
      TrafficIs(OnlyPlanned(pl, w.net), m);
      InNet(w.net, m, e);
      SameDrained(pl, w.net);
    case ReadyDue =>
    case JoinDue(p) =>
      PaidIs(pl.newcomer, w.nodes[p]);
  }

  lemma OnlyHandsOn(s: Stage, step: Step)
    requires InOrder(s) && Shaped(s) && Stalled(s) && Enabled(s.plan, PaidWorld(s.plan, s.world), step)
    ensures HandsOn(s, step)
  {
    hide InOrder, PaidWorld, Enabled, Planned, HandsOn;
    EnabledThere(s, step);
    assert IsWork(Takes(step)) && !Due(s, Takes(step));
  }

  lemma NoneArrive(s: Stage, m: Msg)
    requires InOrder(s) && Shaped(s) && Stalled(s) && Planned(s.plan, m) && m != s.plan.readyNotif
    requires m == s.plan.ready ==> Drained(s.plan, PaidWorld(s.plan, s.world).net)
    ensures TrafficOf(PaidWorld(s.plan, s.world).net, m).copies == multiset{}
  {
    hide InOrder, PaidWorld, Planned, Drained, TrafficOf;
    if e :| e in TrafficOf(PaidWorld(s.plan, s.world).net, m).copies {
      InNet(PaidWorld(s.plan, s.world).net, m, e);
      OnlyHandsOn(s, Arrives(m, e));
    }
  }

  lemma StalledIsDrained(s: Stage)
    requires InOrder(s) && Shaped(s) && Stalled(s)
    ensures Drained(s.plan, PaidWorld(s.plan, s.world).net)
  {
    hide InOrder, PaidWorld, Planned, TrafficOf, Stalled, JoinInv, PlanOk, MemberOk, NewcomerOk, Lagging;
    StageParts(s);
    MessagesDiffer(s.plan);
    NoneArrive(s, s.plan.notif);
    forall p | p in s.plan.members
      ensures TrafficOf(PaidWorld(s.plan, s.world).net, s.plan.acks[p]).copies == multiset{}
    {
      AckIs(s.plan, p);
      NoneArrive(s, s.plan.acks[p]);
    }
  }

  lemma StalledIsSeated(s: Stage)
    requires InOrder(s) && Shaped(s) && Stalled(s)
    ensures TookPlace(s)
  {
    hide InOrder, PaidWorld, Drained, TrafficOf, Stalled, Enabled, Planned, JoinInv, NobodyKnown;
    StageIsNamed(s);
    ReadyPlanned(s.plan);
    var v := PaidWorld(s.plan, s.world);
    StalledIsDrained(s);
    InvMessages(s.plan, v);
    NoneArrive(s, s.plan.ready);
    NewcomerAlike(s.plan, s.world);
    if Enabled(s.plan, v, ReadyDue) {
      OnlyHandsOn(s, ReadyDue);
    }
    DrainedIsSeated(s.plan, v);
  }

  lemma ReadyPlanned(pl: Plan)
    ensures Planned(pl, pl.ready)
  {
  }

  /** Nothing in flight but READY_NOTIF, and READY is not to be sent: it has
      arrived. */
  lemma DrainedIsSeated(pl: Plan, v: World)
    requires JoinInv(pl, v) && pl.acks.Keys == pl.members && Drained(pl, v.net)
    requires TrafficOf(v.net, pl.ready).copies == multiset{} && !Enabled(pl, v, ReadyDue)
    ensures pl.newcomer in v.nodes && v.nodes[pl.newcomer].state == Connected
  {
    hide PlanOk, NodesOk, MemberOk, NewcomerOk, NoticeOk, ProgressOf, Drained, Nearest, TrafficOf, JoinInv, Fan;
    Parts(pl, v);
    MessagesDiffer(pl);
    NewcomerIsNone(pl);
    DrainedIsAcquainted(pl, v);
    ArmedIs(pl, v.nodes);
    AckedIs(pl, v.nodes);
    assert InFlight(pl, ProgressOf(pl, v.nodes), pl.ready) == multiset{};
  }

  /** Every debt is settled by something that is armed or in flight. */
  lemma DebtIsDue(s: Stage, p: Id, y: Id)
    requires InOrder(s) && Shaped(s) && p in s.plan.members && y in Owed(s.plan.newcomer, s.world.nodes[p])
    ensures Due(s, if y in s.world.nodes[p].joinTimers then Expires(y, p) else Hears(y, p))
  {
    hide JoinInv, NoStrays, EntryOk, StampsApart, TrafficOf, Fan, Lagging, Owed;
    DebtorIs(s, p, y);
    FanIs(y, Expecting(s.plan.newcomer, s.plan.members, s.world.nodes, y), Edge(y, p));
  }

  lemma NothingOwed(s: Stage, p: Id)
    requires InOrder(s) && Shaped(s) && Stalled(s) && p in s.plan.members
    ensures Owed(s.plan.newcomer, s.world.nodes[p]) == {}
  {
    hide InOrder, Due, Owed;
    if y :| y in Owed(s.plan.newcomer, s.world.nodes[p]) {
      DebtIsDue(s, p, y);
    }
  }

  /** With nothing owed, the two worlds agree on a member. */
  lemma PaidUp(pl: Plan, past: map<Id, Msg>, n: Node, p: Id)
    requires Joined(pl, Paid(pl.newcomer, n), p) && Lagging(pl.newcomer, past, n) && Owed(pl.newcomer, n) == {}
    requires NobodyKnown(n.newPeers) && p != pl.newcomer
    ensures Joined(pl, n, p)
  {
    hide Coherent;
    var v := Paid(pl.newcomer, n);
    PaidIs(pl.newcomer, n);
    PaidAlike(pl.newcomer, n);
    CoherentAlike(pl.env, v, n);
    forall q | q in n.peers
      ensures n.peers[q] == Connected
    {
      assert q != pl.newcomer ==> q !in Owed(pl.newcomer, n);
    }
    assert Admissions.Underway(n) == {};
    assert n.joinTimers - {pl.newcomer} == {} && n.joinTimers * {pl.newcomer} == {};
  }

  lemma StalledIsConverged(s: Stage)
    requires InOrder(s) && Shaped(s) && Stalled(s) && NobodyKnown(s.world.nodes[s.plan.entry].newPeers)
    ensures Converged(s.plan, s.world)
  {
    hide PlanOk, MemberOk, NewcomerOk, JoinInv, NobodyKnown, Paid, Lagging, Quiescent, NoStrays, StampsApart, EntryOk,
      Enabled, Joined, Stalled, ArrearsOk, TrafficOf, Owed;
    StageParts(s);
    var pl, w, v := s.plan, s.world, PaidWorld(s.plan, s.world);
    assert Quiescent(pl, v) by { StalledIsQuiescent(s); }
    QuiescentIsConverged(pl, v);
    forall p | p in pl.members
      ensures Joined(pl, w.nodes[p], p)
    {
      NothingOwed(s, p);
      PaidUp(pl, s.past, w.nodes[p], p);
    }
    PaidIs(pl.newcomer, w.nodes[pl.entry]);
    forall p, q | p in pl.Everyone() && q in pl.Everyone() && w.nodes[p].group.Some? && w.nodes[q].group.Some?
      ensures w.nodes[p].group.value.rings == w.nodes[q].group.value.rings
    {
      JoinedAgree(pl, w.nodes[p], w.nodes[q], p, q);
    }
  }

  lemma StalledIsQuiescent(s: Stage)
    requires InOrder(s) && Shaped(s) && Stalled(s) && NobodyKnown(s.world.nodes[s.plan.entry].newPeers)
    ensures Quiescent(s.plan, PaidWorld(s.plan, s.world))
  {
    hide InOrder, Stalled, PaidWorld, Enabled, NobodyKnown;
    forall step
      ensures !Enabled(s.plan, PaidWorld(s.plan, s.world), step)
    {
      if Enabled(s.plan, PaidWorld(s.plan, s.world), step) {
        OnlyHandsOn(s, step);
      }
    }
  }

  /** Nothing is left stuck: when nothing more arrives and no timer is armed,
      either the entry point is about to hear of its newcomer and answer the
      next, or nobody waits, everyone relies on everyone, and nothing at all is
      in flight. */
  lemma NothingStuck(s: Stage)
    requires InOrder(s) && Shaped(s) && Stalled(s)
    ensures if Admissions.Waiting(s.world.nodes[s.plan.entry]) != {} then AnswerDue(s)
            else Converged(s.plan, s.world) && forall m :: TrafficOf(s.world.net, m).copies == multiset{}
  {
    hide InOrder, Stalled, Converged, TookPlace, TrafficOf;
    StalledIsSeated(s);
    if NobodyKnown(s.world.nodes[s.plan.entry].newPeers) {
      NobodyWaiting(s.world.nodes[s.plan.entry]);
      StalledIsConverged(s);
      StalledIsSilent(s);
    } else {
      SomebodyWaits(s.world.nodes[s.plan.entry]);
      EntryWaits(s);
    }
  }

  lemma SomebodyWaits(n: Node)
    requires !NobodyKnown(n.newPeers)
    ensures Admissions.Waiting(n) != {}
  {
    var a :| a in n.newPeers && n.newPeers[a].state != New;
    assert n.newPeers[a].id in Admissions.Waiting(n);
  }

  lemma StalledIsSilent(s: Stage)
    requires InOrder(s) && Shaped(s) && Stalled(s) && TookPlace(s)
    requires NobodyKnown(s.world.nodes[s.plan.entry].newPeers)
    ensures forall m :: TrafficOf(s.world.net, m).copies == multiset{}
  {
    hide InOrder, TrafficOf, NobodyKnown, Planned, Stalled, PaidWorld;
    SeatedTraffic(s);
    StalledIsQuiescent(s);
    forall m
      ensures TrafficOf(s.world.net, m).copies == multiset{}
    {
      if m == s.plan.readyNotif {
        NoticePlanned(s.plan);
        NoticeGone(s);
      } else if y :| y in s.past && s.past[y] == m {
        PastGone(s, y);
      }
    }
  }

  lemma NoticeGone(s: Stage)
    requires InOrder(s) && Shaped(s) && Quiescent(s.plan, PaidWorld(s.plan, s.world))
    ensures TrafficOf(s.world.net, s.plan.readyNotif).copies == multiset{}
  {
    hide InOrder, JoinInv, PlanOk, MemberOk, NewcomerOk, Lagging, TrafficOf, Planned, Quiescent, PaidWorld;
    StageParts(s);
    MessagesDiffer(s.plan);
    SameTraffic(s.plan, s.world, s.plan.readyNotif);
    NoCopies(s.plan, PaidWorld(s.plan, s.world), s.plan.readyNotif);
  }

  lemma PastGone(s: Stage, y: Id)
    requires InOrder(s) && Shaped(s) && Stalled(s) && y in s.past
    ensures TrafficOf(s.world.net, s.past[y]).copies == multiset{}
  {
    hide JoinInv, EntryOk, StampsApart, NoStrays, Lagging, TrafficOf, Owed, Stalled;
    forall p | p in s.plan.members
      ensures y !in Owed(s.plan.newcomer, s.world.nodes[p])
    {
      NothingOwed(s, p);
    }
    assert Expecting(s.plan.newcomer, s.plan.members, s.world.nodes, y) == {};
  }

  /** Somebody waits: then the entry point does not rely on its newcomer yet. */
  lemma EntryWaits(s: Stage)
    requires InOrder(s) && Shaped(s) && TookPlace(s) && !NobodyKnown(s.world.nodes[s.plan.entry].newPeers)
    ensures Edge(s.plan.newcomer, s.plan.entry) in TrafficOf(s.world.net, s.plan.readyNotif).copies
            || s.plan.newcomer in s.world.nodes[s.plan.entry].joinTimers
  {
    hide InOrder, PlanOk, NewcomerOk, JoinInv, PaidWorld, NobodyKnown, TrafficOf, Fan, Nearest, ProgressOf, Coherent,
      Owed, Lagging, WireOk, Beside, Paid;
    StageParts(s);
    EntryIs(s);
    SeatedTraffic(s);
    SeatedProgress(s);
    var pl, v, e, n := s.plan, PaidWorld(s.plan, s.world), s.plan.entry, s.world.nodes[s.plan.entry];
    PaidIs(pl.newcomer, n);
    ToldIs(pl, v.nodes, e);
    BesideIsMutual(pl, v.nodes[e], e);
    FanIs(pl.newcomer, Nearest(pl) - ProgressOf(pl, v.nodes).done, Edge(pl.newcomer, e));
  }

  // ------------------------------------------------ how long it takes

  /** Who has yet to rely on which earlier newcomer. */
  ghost function Debts(s: Stage): set<(Id, Id)>
    requires Shaped(s)
  {
    set p, y | p in s.plan.members && y in Owed(s.plan.newcomer, s.world.nodes[p]) :: (p, y)
  }

  /** How much is left to happen of the joins begun so far. */
  ghost function Weight(s: Stage): nat
    requires Shaped(s)
  {
    PaidKeys(s.plan, s.world);
    Remaining(s.plan, PaidWorld(s.plan, s.world)) + |Debts(s)|
  }

  /** What the answer to one more newcomer adds. */
  function Adds(mv: Move): nat {
    if mv.Begins? then 13 * |mv.next.members| + 1 else 0
  }

  lemma SameDebts(s: Stage, after: Stage)
    requires Shaped(s) && Shaped(after) && after.plan == s.plan
    requires forall p | p in s.plan.members ::
               Owed(s.plan.newcomer, after.world.nodes[p]) == Owed(s.plan.newcomer, s.world.nodes[p])
    ensures Debts(after) == Debts(s)
  {
    hide Owed;
  }

  lemma TakesLowers(s: Stage, step: Step)
    requires InOrder(s) && Shaped(s) && Due(s, Takes(step)) && CanMove(s, Takes(step))
    requires Shaped(AfterMove(s, Takes(step)))
    ensures Weight(AfterMove(s, Takes(step))) < Weight(s)
  {
    hide InOrder, JoinInv, PlanOk, MemberOk, NewcomerOk, Enabled, CanStep, JoinWorlds.After, Planned, Advances,
      HandsOn, SameArrears, PaidWorld, Remaining, Lagging, Owed;
    StageParts(s);
    StepKeepsOrder(s, step);
    EnabledAlike(s, step);
    StepLowers(s.plan, PaidWorld(s.plan, s.world), step);
    var after := AfterMove(s, Takes(step));
    forall p | p in s.plan.members
      ensures Owed(s.plan.newcomer, after.world.nodes[p]) == Owed(s.plan.newcomer, s.world.nodes[p])
    {
      LagsOnOwed(s.plan.newcomer, s.world.nodes[p], after.world.nodes[p]);
    }
    SameDebts(s, after);
  }

  lemma OneDebtLess(s: Stage, after: Stage, p: Id, y: Id, log: Log, joinTimers: set<Id>)
    requires Shaped(s) && Shaped(after) && after.plan == s.plan && p in s.plan.members
    requires PeersKnown(s.world.nodes[p]) && y in Owed(s.plan.newcomer, s.world.nodes[p])
    requires joinTimers == s.world.nodes[p].joinTimers || joinTimers == s.world.nodes[p].joinTimers - {y}
    requires after.world.nodes == s.world.nodes[p := Relying(s.world.nodes[p], y, log, joinTimers)]
    ensures |Debts(after)| == |Debts(s)| - 1
  {
    ReliesOnOther(s.plan.newcomer, s.world.nodes[p], y, log, joinTimers);
    hide Owed, Relying;
    assert (p, y) in Debts(s);
    assert Debts(after) == Debts(s) - {(p, y)};
  }

  lemma LateLowers(s: Stage, mv: Move)
    requires InOrder(s) && Shaped(s) && Due(s, mv) && (mv.Hears? || mv.Expires?) && CanMove(s, mv)
    requires Shaped(AfterMove(s, mv))
    ensures Weight(AfterMove(s, mv)) < Weight(s)
  {
    hide InOrder, PlanOk, TrafficOf, Receive, CanReceive, CompleteJoin, CanCheck, Owed, Settles, PaidWorld, Remaining,
      Relying, Debts;
    var y, p := mv.late, mv.member;
    var n := s.world.nodes[p];
    if mv.Hears? {
      LateNotice(s, y, p);
      DebtorIs(s, p, y);
      LateNoticeKeepsOrder(s, y, p);
      OneDebtLess(s, AfterMove(s, mv), p, y, AfterMove(s, mv).world.nodes[p].log, n.joinTimers);
    } else {
      LateTimer(s, y, p);
      DebtorIs(s, p, y);
      SettlingKeepsOrder(s, p, y, n.log, n.joinTimers - {y}, s.world.net);
      OneDebtLess(s, AfterMove(s, mv), p, y, n.log, n.joinTimers - {y});
    }
  }

  lemma WaitsWeighsNothing(s: Stage, mv: Move)
    requires InOrder(s) && Shaped(s) && Due(s, mv) && mv.Waits? && CanMove(s, mv) && Shaped(AfterMove(s, mv))
    ensures Weight(AfterMove(s, mv)) == Weight(s)
  {
    hide InOrder, PlanOk, Receive, CanReceive, PaidWorld, Remaining, Admissions.Waiting, Debts, EntryOk;
    AskingKeepsOrder(s, mv.address, mv.request, mv.stamps);
    EntryIs(s);
    EntryOwesNobody(s);
    EntryOwesNobody(AfterMove(s, mv));
    SameDebts(s, AfterMove(s, mv));
  }

  lemma EntryOwesNobody(s: Stage)
    requires InOrder(s)
    ensures s.plan.entry in s.world.nodes && Owed(s.plan.newcomer, s.world.nodes[s.plan.entry]) == {}
  {
    hide JoinInv, ArrearsOk, NoStrays, StampsApart, Owed, PaidWorld;
    StageIsShaped(s);
  }

  /** The debts of the next join are those of this one, and those of whoever
      does not rely on its newcomer yet. */
  lemma DebtsOfNext(s: Stage, next: Plan, after: World)
    requires InOrder(s) && Shaped(s) && TookPlace(s) && Fits(s, next)
    requires InOrder(Stage(next, NextPast(s), after)) && Shaped(Stage(next, NextPast(s), after))
    requires forall p | p in next.members && p != next.entry :: after.nodes[p] == s.world.nodes[p]
    ensures PaidWorld(s.plan, s.world).nodes.Keys == s.plan.Everyone()
    ensures |Debts(Stage(next, NextPast(s), after))|
            <= |Debts(s)| + |s.plan.members - ProgressOf(s.plan, PaidWorld(s.plan, s.world).nodes).done|
  {
    hide InOrder, Shaped, PaidWorld, TookPlace, ProgressOf, Fits, Debts, NextPast;
    PaidKeys(s.plan, s.world);
    ShapedIs(s);
    var undone := s.plan.members - ProgressOf(s.plan, PaidWorld(s.plan, s.world).nodes).done;
    var added := set p | p in undone :: (p, s.plan.newcomer);
    forall d | d in Debts(Stage(next, NextPast(s), after))
      ensures d in Debts(s) + added
    {
      IsDebt(Stage(next, NextPast(s), after), d.0, d.1);
      FitsIs(s, next);
      DebtOfNext(s, next, after, d.0, d.1);
    }
    SmallerCount(Debts(Stage(next, NextPast(s), after)), Debts(s) + added);
    PairsCount(undone, s.plan.newcomer);
  }

  lemma ShapedIs(s: Stage)
    requires Shaped(s)
    ensures s.world.nodes.Keys == s.plan.Everyone() && s.plan.entry in s.plan.members
  {
  }

  lemma DebtOfNext(s: Stage, next: Plan, after: World, p: Id, y: Id)
    requires InOrder(s) && Shaped(s) && TookPlace(s) && Fits(s, next)
    requires InOrder(Stage(next, NextPast(s), after)) && Shaped(Stage(next, NextPast(s), after))
    requires p in next.members && p != next.entry ==> after.nodes[p] == s.world.nodes[p]
    requires (p, y) in Debts(Stage(next, NextPast(s), after))
    requires PaidWorld(s.plan, s.world).nodes.Keys == s.plan.Everyone()
    ensures (p, y) in Debts(s)
            || (y == s.plan.newcomer
                && p in s.plan.members - ProgressOf(s.plan, PaidWorld(s.plan, s.world).nodes).done)
  {
    hide InOrder, PaidWorld, Owed, Done, TookPlace, ProgressOf, Lagging, Nearest, Fits, Debts, PlanOk, NextPast;
    FitsIs(s, next);
    NewcomerApart(s);
    EntryOwesNobody(Stage(next, NextPast(s), after));
    IsDebt(Stage(next, NextPast(s), after), p, y);
    IsDebt(s, p, y);
    DebtsPassOn(s, next.newcomer, p);
  }

  lemma IsDebt(s: Stage, p: Id, y: Id)
    requires Shaped(s)
    ensures (p, y) in Debts(s) <==> p in s.plan.members && y in Owed(s.plan.newcomer, s.world.nodes[p])
  {
    hide Owed;
  }

  lemma {:induction false} PairsCount(ids: set<Id>, x: Id)
    ensures |set p | p in ids :: (p, x)| == |ids|
    decreases |ids|
  {
    if ids != {} {
      var q :| q in ids;
      PairsCount(ids - {q}, x);
      assert (set p | p in ids :: (p, x)) == (set p | p in ids - {q} :: (p, x)) + {(q, x)};
    } else {
      assert (set p | p in ids :: (p, x)) == {};
    }
  }

  lemma BeginsElsewhere(s: Stage, mv: Move)
    requires Shaped(s) && mv.Begins? && CanMove(s, mv)
    ensures var after := AfterMove(s, mv);
            && after == Stage(mv.next, NextPast(s), after.world)
            && forall p | p in s.world.nodes && p != mv.next.entry && p != mv.next.newcomer ::
              p in after.world.nodes && after.world.nodes[p] == s.world.nodes[p]
  {
    hide Due, Receive, CanReceive, CompleteJoin, CanCheck, NextPast, Take, PostAll, PlanOk, TrafficOf;
  }

  lemma StillLeft(pl: Plan, w: World)
    requires w.nodes.Keys == pl.Everyone() && pl.entry in pl.members
    ensures |pl.members - ProgressOf(pl, w.nodes).done| <= Remaining(pl, w)
  {
    hide ProgressOf, NoticeLeft;
  }

  lemma BeginsWeighs(s: Stage, mv: Move)
    requires InOrder(s) && Shaped(s) && Due(s, mv) && mv.Begins? && CanMove(s, mv) && Shaped(AfterMove(s, mv))
    ensures Weight(AfterMove(s, mv)) <= Weight(s) + Adds(mv)
  {
    hide InOrder, PlanOk, CanMove, AfterMove, NextPast, Admissions.Waiting, PaidWorld, Debts, ProgressOf, Remaining,
      Fits, Caller, TookPlace, NextInLine, FreeToAnswer, TrafficOf;
    var next, after := mv.next, AfterMove(s, mv);
    BeginKeepsOrder(s, mv);
    BeginsElsewhere(s, mv);
    FitsIs(s, next);
    DebtsOfNext(s, next, after.world);
    StillLeft(s.plan, PaidWorld(s.plan, s.world));
  }

  /** Every step, late notice and late timer leaves less to happen. */
  lemma MoveWeighs(s: Stage, mv: Move)
    requires InOrder(s) && Shaped(s) && Due(s, mv) && CanMove(s, mv) && Shaped(AfterMove(s, mv))
    ensures Weight(AfterMove(s, mv)) + Once(IsWork(mv)) <= Weight(s) + Adds(mv)
  {
    hide InOrder, Due, CanMove, AfterMove, Shaped, Weight;
    match mv
    case Takes(step) => TakesLowers(s, step);
    case Hears(y, p) => LateLowers(s, mv);
    case Expires(y, p) => LateLowers(s, mv);
    case Waits(a, m, st) => WaitsWeighsNothing(s, mv);
    case Begins(next, newcomer, via) => BeginsWeighs(s, mv);
  }

  // ---------------------------------------------------------- the theorem

  /** These moves lead from s to end. */
  ghost predicate Leads(s: Stage, moves: seq<Move>, end: Stage)
    decreases |moves|
  {
    if moves == [] then end == s
    else Shaped(s) && CanMove(s, moves[0]) && Leads(AfterMove(s, moves[0]), moves[1..], end)
  }

  function AllCalled(moves: seq<Move>): set<Id> {
    if moves == [] then {} else Called(moves[0]) + AllCalled(moves[1..])
  }

  function Works(moves: seq<Move>): nat {
    if moves == [] then 0 else Once(IsWork(moves[0])) + Works(moves[1..])
  }

  function AllAdd(moves: seq<Move>): nat {
    if moves == [] then 0 else Adds(moves[0]) + AllAdd(moves[1..])
  }

  /** Over every run of overlapping joins: everything stays in order, nobody who
      called is lost, and only so much can happen for each newcomer. */
  lemma {:induction false} RunGathers(s: Stage, moves: seq<Move>, end: Stage)
    requires InOrder(s) && Leads(s, moves, end)
    ensures Shaped(s) && InOrder(end) && Shaped(end)
    ensures Gathered(end) == Gathered(s) + AllCalled(moves)
    ensures Works(moves) + Weight(end) <= Weight(s) + AllAdd(moves)
    decreases |moves|
  {
    hide InOrder, Shaped, CanMove, AfterMove, Gathered, Weight, Called, Adds, IsWork;
    StageIsShaped(s);
    if moves != [] {
      var mv := moves[0];
      CanIsDue(s, mv);
      MoveKeepsOrder(s, mv);
      MoveWeighs(s, mv);
      RunGathers(AfterMove(s, mv), moves[1..], end);
    }
  }

  lemma CanIsDue(s: Stage, mv: Move)
    requires Shaped(s) && CanMove(s, mv)
    ensures Due(s, mv)
  {
    hide Due;
  }

  /** A member without arrears, before it is told or once it waits for x. */
  lemma NoArrears(pl: Plan, n: Node, p: Id)
    requires PlanOk(pl) && p in pl.members && p in pl.acks && pl.acks[p].JoinAck? && MemberOk(pl, n, p)
    requires if Told(pl, n) then !Done(pl, n) else n.joinToken
    ensures Paid(pl.newcomer, n) == n && Lagging(pl.newcomer, map[], n) && EntryOk(pl.newcomer, n)
    ensures Admissions.Waiting(n) == {}
  {
    hide PlanOk, Coherent;
    NewcomerIsNone(pl);
    var v := Paid(pl.newcomer, n);
    assert v.peers == n.peers && v.newPeers == n.newPeers && v.joinTimers == n.joinTimers;
    if Told(pl, n) {
      ToldKnows(pl, n, p);
      assert pl.newcomer in Admissions.Underway(n);
    }
  }

  ghost predicate TokensFree(pl: Plan, nodes: map<Id, Node>) {
    forall p | p in pl.members && p in nodes :: nodes[p].joinToken
  }

  /** The first member answers: nothing is in arrears yet. */
  lemma FirstNodes(pl: Plan, nodes: map<Id, Node>, w: World)
    requires PlanOk(pl) && pl.entry in pl.members && Before(pl, nodes) && AnsweredWorld(pl, nodes, w)
    requires TokensFree(pl, nodes)
    ensures forall p | p in pl.members ::
      && p in w.nodes && Paid(pl.newcomer, w.nodes[p]) == w.nodes[p] && Lagging(pl.newcomer, map[], w.nodes[p])
      && EntryOk(pl.newcomer, w.nodes[p]) && Admissions.Waiting(w.nodes[p]) == {}
      && NobodyKnown(w.nodes[p].newPeers)
  {
    hide PlanOk, MemberOk, Told, Done, Zeros, PostAll, Plan.Graph, NewcomerOk, Untold, Hosting, Paid, Lagging, EntryOk,
      Admissions.Waiting, NobodyKnown;
    PlanIs(pl);
    forall p | p in pl.members
      ensures p in w.nodes && Paid(pl.newcomer, w.nodes[p]) == w.nodes[p] && Lagging(pl.newcomer, map[], w.nodes[p])
      ensures EntryOk(pl.newcomer, w.nodes[p]) && Admissions.Waiting(w.nodes[p]) == {}
      ensures NobodyKnown(w.nodes[p].newPeers)
    {
      AckIs(pl, p);
      if p != pl.entry {
        UntoldIs(pl, nodes[p], p);
      }
      NoArrears(pl, w.nodes[p], p);
      MemberIs(pl, w.nodes[p], p);
    }
  }

  lemma AllPlanned(pl: Plan, w: World)
    requires JoinInv(pl, w)
    requires forall p | p in w.nodes && p != pl.newcomer :: Paid(pl.newcomer, w.nodes[p]) == w.nodes[p]
    ensures PaidWorld(pl, w) == w && NoStrays(pl, map[], w.net)
  {
    hide PlanOk, NodesOk, ProgressOf, NoticeOk, Planned, Paid, TrafficOf, WireOk, ProgressOk, MemberOk, NewcomerOk;
    Parts(pl, w);
    WireIsPlanned(pl, ProgressOf(pl, w.nodes), w.net);
    assert PaidNodes(pl, w.nodes) == w.nodes;
    forall m | TrafficOf(w.net, m).copies != multiset{}
      ensures Planned(pl, m)
    {
      if m !in w.net {
        AbsentTraffic(w.net, m);
      }
    }
  }

  lemma WireIsPlanned(pl: Plan, pr: Progress, net: Net)
    requires WireOk(pl, pr, net)
    ensures OnlyPlanned(pl, net) == net && forall m | m in net :: Planned(pl, m)
  {
    hide Planned, InFlight, TrafficOf;
  }

  lemma AbsentTraffic(net: Net, m: Msg)
    requires m !in net
    ensures TrafficOf(net, m).copies == multiset{}
  {
  }

  lemma FirstInOrder(pl: Plan, nodes: map<Id, Node>, w: World)
    requires PlanOk(pl) && pl.entry in pl.members && Before(pl, nodes) && AnsweredWorld(pl, nodes, w)
    requires TokensFree(pl, nodes) && JoinInv(pl, w) && w.nodes.Keys == pl.Everyone()
    ensures InOrder(Stage(pl, map[], w)) && PaidWorld(pl, w) == w && Debts(Stage(pl, map[], w)) == {}
    ensures Admissions.Waiting(w.nodes[pl.entry]) == {}
  {
    hide PlanOk, Before, JoinInv, AnsweredWorld, Lagging, EntryOk, Admissions.Waiting, NobodyKnown, Paid, NoStrays,
      PaidWorld, TrafficOf, Planned;
    FirstNodes(pl, nodes, w);
    AllPlanned(pl, w);
    FirstNewcomer(pl, nodes, w);
    var s := Stage(pl, map[], w);
    assert ArrearsOk(pl.newcomer, pl.members, map[], w) && StampsApart(pl, map[]);
    StageIsShaped(s);
    FirstDebts(s);
  }

  /** Any join that begins while all tokens are free is the first of a run. */
  lemma FirstStage(pl: Plan, nodes: map<Id, Node>, stamp: Bytes)
    requires PlanOk(pl) && Before(pl, nodes) && FreshRequest(pl, nodes[pl.entry], stamp) && TokensFree(pl, nodes)
    ensures var s := Stage(pl, map[], Answer(pl, nodes, stamp));
            && InOrder(s) && Shaped(s) && Gathered(s) == pl.Everyone() && Weight(s) <= 13 * |pl.members| + 1
  {
    hide PlanOk, Before, JoinInv, ProgressOf, Answer, Start, FloodOf, AnsweredWorld, InOrder, Admissions.Waiting,
      PaidWorld, Remaining, Debts, TokensFree, FreshRequest, MemberOk, NewcomerOk, NodesOk, WireOk, NoticeOk,
      ProgressOk, Plan.Graph;
    var w := Answer(pl, nodes, stamp);
    AnswerIs(pl, nodes, stamp);
    AnswerStarts(pl, nodes, stamp);
    Parts(pl, w);
    FirstInOrder(pl, nodes, w);
    StageIsShaped(Stage(pl, map[], w));
    StartIsShort(pl, w);
  }

  lemma FirstNewcomer(pl: Plan, nodes: map<Id, Node>, w: World)
    requires PlanOk(pl) && pl.entry in pl.members && Before(pl, nodes) && AnsweredWorld(pl, nodes, w)
    requires pl.newcomer in w.nodes
    ensures w.nodes[pl.newcomer].state != Connected
  {
    hide PlanOk, NewcomerOk, Untold, Hosting;
    NewcomerIsNone(pl);
  }

  lemma FirstDebts(s: Stage)
    requires Shaped(s) && forall p | p in s.plan.members :: Lagging(s.plan.newcomer, map[], s.world.nodes[p])
    ensures Debts(s) == {}
  {
    forall p | p in s.plan.members
      ensures Owed(s.plan.newcomer, s.world.nodes[p]) == {}
    {
    }
  }

  /** Joins that overlap: from one join begun in a quiet group, over any number
      of further ones, each answered as soon as the code would, whatever the
      others are still waiting for. It can always go on until nobody waits and
      nothing is left to do; for each newcomer only so much can happen; and then
      everybody who called is in one group, with everyone relying on everyone. */
  lemma JoinsOverlap(pl: Plan, nodes: map<Id, Node>, stamp: Bytes, moves: seq<Move>, end: Stage)
    requires PlanOk(pl) && Before(pl, nodes) && FreshRequest(pl, nodes[pl.entry], stamp) && TokensFree(pl, nodes)
    requires Leads(Stage(pl, map[], Answer(pl, nodes, stamp)), moves, end)
    ensures Shaped(end) && forall mv | Due(end, mv) :: CanMove(end, mv)
    ensures Works(moves) <= 13 * |pl.members| + 1 + AllAdd(moves)
    ensures Stalled(end) && !AnswerDue(end) ==>
      && Converged(end.plan, end.world) && end.plan.Everyone() == pl.Everyone() + AllCalled(moves)
      && forall m :: TrafficOf(end.world.net, m).copies == multiset{}
  {
    hide PlanOk, Before, Answer, InOrder, Shaped, Due, CanMove, Stalled, AnswerDue, Converged, TrafficOf, Weight,
      Admissions.Waiting;
    FirstStage(pl, nodes, stamp);
    RunGathers(Stage(pl, map[], Answer(pl, nodes, stamp)), moves, end);
    forall mv | Due(end, mv)
      ensures CanMove(end, mv)
    {
      MoveKeepsOrder(end, mv);
    }
    if Stalled(end) && !AnswerDue(end) {
      NothingStuck(end);
    }
  }

  /** A group that a join, or a run of joins, has left is quiet. */
  lemma JoinedIsQuiet(pl: Plan, w: World, next: Plan, newcomer: Node)
    requires PlanOk(pl) && Converged(pl, w) && Lifecycles.Follows(pl, w, next)
    requires next.entry in w.nodes && next.newcomer in next.addresses && next.newcomer !in next.members
    ensures TokensFree(next, Lifecycles.Meets(w, next, newcomer))
  {
    hide PlanOk, Joined;
    forall p | p in next.members
      ensures w.nodes[p].joinToken
    {
      Lifecycles.JoinedIs(pl, w.nodes[p], p);
    }
  }

  /** Two nodes that have just started, once the one has answered the other. */
  ghost function TwoNodes(env: Env, t: Lifecycles.Meeting): Stage
    requires Lifecycles.MeetingOk(env, t)
  {
    Lifecycles.TwoNodesCanJoin(env, t);
    var pl := Lifecycles.FirstPlan(env, t);
    Stage(pl, map[], Answer(pl, Lifecycles.Calling(t), t.request))
  }

  /** From two starting nodes: however many call, and however their joins
      overlap, all of them end in one group. */
  lemma GroupGathers(env: Env, t: Lifecycles.Meeting, moves: seq<Move>, end: Stage)
    requires Lifecycles.MeetingOk(env, t) && Leads(TwoNodes(env, t), moves, end)
    ensures Shaped(end)
    ensures Stalled(end) && !AnswerDue(end) ==>
      Converged(end.plan, end.world) && end.plan.Everyone() == {t.entry, t.newcomer} + AllCalled(moves)
  {
    hide PlanOk, Before, Answer, Shaped, Stalled, AnswerDue, Converged, FreshRequest, Leads;
    Lifecycles.TwoNodesCanJoin(env, t);
    JoinsOverlap(Lifecycles.FirstPlan(env, t), Lifecycles.Calling(t), t.request, moves, end);
  }
}
