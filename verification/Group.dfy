/** A group: five rings over the same members, and the cached neighbours of the
    local peer, united over the rings. */
module Groups {
  import opened Bytes
  import opened Rings

  type GroupRings = r: seq<seq<Slot>> | |r| == RINGS_NB witness seq(RINGS_NB, _ => [])

  function PutAll(key: RingKeys, rings: GroupRings, p: Id): (all: GroupRings)
    ensures forall i | 0 <= i < RINGS_NB :: all[i] == Put(rings[i], key(i, p), p)
  {
    var all := seq(RINGS_NB, i requires 0 <= i < RINGS_NB => Put(rings[i], key(i, p), p));
    all
  }

  function EraseAll(key: RingKeys, rings: GroupRings, p: Id): (all: GroupRings)
    ensures forall i | 0 <= i < RINGS_NB :: all[i] == Erase(rings[i], key(i, p))
  {
    var all := seq(RINGS_NB, i requires 0 <= i < RINGS_NB => Erase(rings[i], key(i, p)));
    all
  }

  /** Rings 0..n-1 all find the local peer, and somebody else besides. */
  predicate FoundUpTo(key: RingKeys, rings: GroupRings, local: Id, n: nat)
    requires n <= RINGS_NB
  {
    forall i | 0 <= i < n :: Has(rings[i], key(i, local)) && |rings[i]| > 1
  }

  /** The successors of local in rings 0..n-1. */
  function NextSet(key: RingKeys, rings: GroupRings, local: Id, n: nat): set<Id>
    requires n <= RINGS_NB && FoundUpTo(key, rings, local, n)
  {
    if n == 0 then {} else NextSet(key, rings, local, n - 1) + {Next(rings[n - 1], key(n - 1, local)).value}
  }

  /** The predecessors of local in rings 0..n-1. */
  function PrevSet(key: RingKeys, rings: GroupRings, local: Id, n: nat): set<Id>
    requires n <= RINGS_NB && FoundUpTo(key, rings, local, n)
  {
    if n == 0 then {} else PrevSet(key, rings, local, n - 1) + {Prev(rings[n - 1], key(n - 1, local)).value}
  }

  lemma {:induction false} InNextSet(key: RingKeys, rings: GroupRings, local: Id, n: nat, q: Id)
    requires n <= RINGS_NB && FoundUpTo(key, rings, local, n)
    ensures q in NextSet(key, rings, local, n) <==> exists i | 0 <= i < n :: Next(rings[i], key(i, local)) == Some(q)
    ensures q in PrevSet(key, rings, local, n) <==> exists i | 0 <= i < n :: Prev(rings[i], key(i, local)) == Some(q)
  {
    hide Next, Prev, Has;
    if n > 0 {
      InNextSet(key, rings, local, n - 1, q);
    }
  }

  /** The value a Group object holds. */
  datatype View = View(
    id: Bytes,
    peers: set<Id>,
    rings: GroupRings,
    predecessors: set<Id>,
    successors: set<Id>)
  {
    function AddToRings(key: RingKeys, p: Id): View {
      this.(rings := PutAll(key, rings, p))
    }

    function AddPeer(key: RingKeys, p: Id): View {
      this.(peers := peers + {p}).AddToRings(key, p)
    }

    function RemovePeer(key: RingKeys, p: Id): View {
      this.(rings := EraseAll(key, rings, p), peers := peers - {p})
    }

    function UpdateNeighbours(key: RingKeys, local: Id): View {
      // no ring throws PeerNotFoundException
      if FoundUpTo(key, rings, local, RINGS_NB) then
        this.(predecessors := PrevSet(key, rings, local, RINGS_NB),
              successors := NextSet(key, rings, local, RINGS_NB))
      else
        this.(predecessors := {}, successors := {})
    }
  }

  function EmptyView(id: Bytes): View {
    View(id, {}, seq(RINGS_NB, _ => []), {}, {})
  }

  // ------------------------------------------------ rings of a member set

  /** All five rings hold exactly these members. */
  ghost predicate RingsHold(key: RingKeys, v: View, members: set<Id>) {
    forall i | 0 <= i < RINGS_NB :: IsRing(key, i, v.rings[i], members)
  }

  /** The successors of p over the five rings of a member set. */
  ghost function Succs(key: RingKeys, members: set<Id>, p: Id): set<Id> {
    set q | q in members && exists i | 0 <= i < RINGS_NB :: IsNext(key, i, members, p, q)
  }

  ghost function Preds(key: RingKeys, members: set<Id>, p: Id): set<Id> {
    set q | q in members && exists i | 0 <= i < RINGS_NB :: IsNext(key, i, members, q, p)
  }

  /** The cached neighbours of local are those a recomputation would find. */
  ghost predicate CacheExact(key: RingKeys, v: View, members: set<Id>, local: Id) {
    v.successors == Succs(key, members, local) && v.predecessors == Preds(key, members, local)
  }

  /** No operation changes the group's id. */
  lemma IdKept(key: RingKeys, v: View, p: Id, local: Id)
    ensures v.AddToRings(key, p).id == v.id && v.AddPeer(key, p).id == v.id
    ensures v.AddPeer(key, p).UpdateNeighbours(key, local).id == v.id
  {
  }

  lemma EmptyViewHolds(key: RingKeys, id: Bytes)
    ensures RingsHold(key, EmptyView(id), {})
  {
  }

  lemma AddKeepsRings(key: RingKeys, v: View, members: set<Id>, p: Id)
    requires RingsHold(key, v, members) && KeysDistinct(key, members + {p})
    ensures RingsHold(key, v.AddToRings(key, p), members + {p})
    ensures RingsHold(key, v.AddPeer(key, p), members + {p})
  {
    forall i | 0 <= i < RINGS_NB
      ensures IsRing(key, i, Put(v.rings[i], key(i, p), p), members + {p})
    {
      PutKeepsRing(key, i, v.rings[i], members, p);
    }
  }

  lemma RemoveKeepsRings(key: RingKeys, v: View, members: set<Id>, p: Id)
    requires RingsHold(key, v, members) && KeysDistinct(key, members + {p})
    ensures RingsHold(key, v.RemovePeer(key, p), members - {p})
  {
    forall i | 0 <= i < RINGS_NB
      ensures IsRing(key, i, Erase(v.rings[i], key(i, p)), members - {p})
    {
      EraseKeepsRing(key, i, v.rings[i], members, p);
    }
  }

  /** View agreement over all five rings. */
  lemma SameMembersSameRings(key: RingKeys, a: View, b: View, members: set<Id>)
    requires RingsHold(key, a, members) && RingsHold(key, b, members)
    ensures a.rings == b.rings
  {
    forall i | 0 <= i < RINGS_NB
      ensures a.rings[i] == b.rings[i]
    {
      SameMembersSameRing(key, i, a.rings[i], b.rings[i], members);
    }
  }

  /** Removing undoes adding, ring for ring. */
  lemma RemoveUndoesAdd(key: RingKeys, v: View, members: set<Id>, p: Id)
    requires RingsHold(key, v, members) && KeysDistinct(key, members + {p}) && p !in members
    ensures v.AddToRings(key, p).RemovePeer(key, p).rings == v.rings
  {
    AddKeepsRings(key, v, members, p);
    var w := v.AddToRings(key, p);
    assert members + {p} + {p} == members + {p};
    RemoveKeepsRings(key, w, members + {p}, p);
    assert members + {p} - {p} == members;
    SameMembersSameRings(key, w.RemovePeer(key, p), v, members);
  }

  // ---------------------------------------------------------- histories

  datatype Change = Adds(peer: Id) | Removes(peer: Id)

  /** The view after these calls of add_peer and remove_peer. */
  function Changed(key: RingKeys, v: View, changes: seq<Change>): View
    decreases |changes|
  {
    if changes == [] then v
    else Changed(key, if changes[0].Adds? then v.AddPeer(key, changes[0].peer) else v.RemovePeer(key, changes[0].peer),
                 changes[1..])
  }

  function MembersAfter(members: set<Id>, changes: seq<Change>): set<Id>
    decreases |changes|
  {
    if changes == [] then members
    else MembersAfter(if changes[0].Adds? then members + {changes[0].peer} else members - {changes[0].peer},
                      changes[1..])
  }

  function Touched(changes: seq<Change>): set<Id> {
    set c | c in changes :: c.peer
  }

  lemma TouchedFirst(changes: seq<Change>)
    requires changes != []
    ensures changes[0].peer in Touched(changes) && Touched(changes[1..]) <= Touched(changes)
  {
    assert changes[0] in changes;
    assert forall c | c in changes[1..] :: c in changes;
  }

  lemma {:induction false} ChangesKeepRings(key: RingKeys, v: View, members: set<Id>, changes: seq<Change>)
    requires RingsHold(key, v, members) && KeysDistinct(key, members + Touched(changes))
    ensures RingsHold(key, Changed(key, v, changes), MembersAfter(members, changes))
    decreases |changes|
  {
    hide RingsHold, KeysDistinct, View.AddPeer, View.RemovePeer, Touched;
    if changes != [] {
      var p, rest := changes[0].peer, changes[1..];
      TouchedFirst(changes);
      FewerKeysDistinct(key, members + {p}, members + Touched(changes));
      AddKeepsRings(key, v, members, p);
      RemoveKeepsRings(key, v, members, p);
      var next := if changes[0].Adds? then members + {p} else members - {p};
      FewerKeysDistinct(key, next + Touched(rest), members + Touched(changes));
      ChangesKeepRings(key, if changes[0].Adds? then v.AddPeer(key, p) else v.RemovePeer(key, p), next, rest);
    }
  }

  /** View agreement over histories: whatever was added and removed, in whatever
      order, if the same members remain the five rings are the same. */
  lemma HistoryDoesNotMatter(key: RingKeys, id: Bytes, a: seq<Change>, b: seq<Change>)
    requires KeysDistinct(key, Touched(a)) && KeysDistinct(key, Touched(b))
    requires MembersAfter({}, a) == MembersAfter({}, b)
    ensures Changed(key, EmptyView(id), a).rings == Changed(key, EmptyView(id), b).rings
  {
    hide RingsHold, KeysDistinct, Changed, MembersAfter, Touched;
    EmptyViewHolds(key, id);
    assert {} + Touched(a) == Touched(a) && {} + Touched(b) == Touched(b);
    ChangesKeepRings(key, EmptyView(id), {}, a);
    ChangesKeepRings(key, EmptyView(id), {}, b);
    SameMembersSameRings(key, Changed(key, EmptyView(id), a), Changed(key, EmptyView(id), b), MembersAfter({}, a));
  }

  // -------------------------------------------------------- the cache

  lemma NextOf(key: RingKeys, i: nat, r: seq<Slot>, members: set<Id>, local: Id)
    requires IsRing(key, i, r, members) && local in members && |members| > 1
    ensures Has(r, key(i, local)) && |r| > 1
    ensures forall q :: IsNext(key, i, members, local, q) <==> Next(r, key(i, local)).value == q
    ensures forall q :: IsNext(key, i, members, q, local) <==> Prev(r, key(i, local)).value == q
  {
    RingSize(key, i, r, members);
    MemberHasSlot(key, i, r, members, local);
    forall q
      ensures IsNext(key, i, members, local, q) <==> Next(r, key(i, local)).value == q
      ensures IsNext(key, i, members, q, local) <==> Prev(r, key(i, local)).value == q
    {
      NextIsNext(key, i, r, members, local, q);
      PrevIsNext(key, i, r, members, local, q);
    }
  }

  lemma UpdateOfMember(key: RingKeys, v: View, members: set<Id>, local: Id)
    requires RingsHold(key, v, members) && local in members && |members| > 1
    ensures CacheExact(key, v.UpdateNeighbours(key, local), members, local)
  {
    hide Next, Prev, Has, LowerBound, FirstNotBelow, IsRing;
    var w := v.UpdateNeighbours(key, local);
    forall i | 0 <= i < RINGS_NB
      ensures Has(v.rings[i], key(i, local)) && |v.rings[i]| > 1
    {
      NextOf(key, i, v.rings[i], members, local);
    }
    assert FoundUpTo(key, v.rings, local, RINGS_NB);
    forall q
      ensures q in w.successors <==> q in Succs(key, members, local)
      ensures q in w.predecessors <==> q in Preds(key, members, local)
    {
      InNextSet(key, v.rings, local, RINGS_NB, q);
      forall i | 0 <= i < RINGS_NB
        ensures IsNext(key, i, members, local, q) <==> Next(v.rings[i], key(i, local)) == Some(q)
        ensures IsNext(key, i, members, q, local) <==> Prev(v.rings[i], key(i, local)) == Some(q)
      {
        NextIsNext(key, i, v.rings[i], members, local, q);
        PrevIsNext(key, i, v.rings[i], members, local, q);
      }
    }
  }

  /** update_neighbours computes the reference sets; both are empty when the
      local peer is absent or alone. */
  lemma UpdateIsExact(key: RingKeys, v: View, members: set<Id>, local: Id)
    requires RingsHold(key, v, members) && KeysDistinct(key, members + {local})
    ensures CacheExact(key, v.UpdateNeighbours(key, local), members, local)
  {
    if local in members && |members| > 1 {
      UpdateOfMember(key, v, members, local);
    } else {
      NobodyNext(key, members, local);
      assert KeysDistinctIn(key, 0, members + {local});
      MemberHasSlot(key, 0, v.rings[0], members, local);
      RingSize(key, 0, v.rings[0], members);
    }
  }

  lemma FewerKeysDistinct(key: RingKeys, small: set<Id>, big: set<Id>)
    requires small <= big && KeysDistinct(key, big)
    ensures KeysDistinct(key, small)
  {
    forall i | 0 <= i < RINGS_NB
      ensures KeysDistinctIn(key, i, small)
    {
      assert KeysDistinctIn(key, i, big);
    }
  }

  /** Taking x in and recomputing: the view acknowledge_join leaves. */
  lemma TakeIn(key: RingKeys, v: View, members: set<Id>, x: Id, local: Id)
    requires RingsHold(key, v, members) && KeysDistinct(key, members + {x, local})
    ensures var w := v.AddPeer(key, x).UpdateNeighbours(key, local);
            && w.id == v.id && w.peers == v.peers + {x}
            && RingsHold(key, w, members + {x}) && CacheExact(key, w, members + {x}, local)
  {
    FewerKeysDistinct(key, members + {x}, members + {x, local});
    AddKeepsRings(key, v, members, x);
    assert members + {x} + {local} == members + {x, local};
    UpdateIsExact(key, v.AddPeer(key, x), members + {x}, local);
  }

  /** Taking our own place: the view READY leaves. */
  lemma TakePlace(key: RingKeys, v: View, members: set<Id>, local: Id)
    requires RingsHold(key, v, members) && KeysDistinct(key, members + {local})
    ensures var w := v.AddToRings(key, local).UpdateNeighbours(key, local);
            && w.id == v.id && w.peers == v.peers
            && RingsHold(key, w, members + {local}) && CacheExact(key, w, members + {local}, local)
  {
    AddKeepsRings(key, v, members, local);
    assert members + {local} + {local} == members + {local};
    UpdateIsExact(key, v.AddToRings(key, local), members + {local}, local);
  }

  /** Taking x in without recomputing: what JOIN_ACK does. */
  lemma TakeInOnly(key: RingKeys, v: View, members: set<Id>, x: Id)
    requires RingsHold(key, v, members) && KeysDistinct(key, members + {x})
    ensures var w := v.AddPeer(key, x);
            && w.id == v.id && w.peers == v.peers + {x} && RingsHold(key, w, members + {x})
            && w.successors == v.successors && w.predecessors == v.predecessors
  {
    AddKeepsRings(key, v, members, x);
  }

  /** Dropping x, twice over as handle_disconnect does, and recomputing. */
  lemma DropOut(key: RingKeys, v: View, members: set<Id>, x: Id, local: Id)
    requires RingsHold(key, v, members) && KeysDistinct(key, members + {x, local})
    ensures var w := v.RemovePeer(key, x).RemovePeer(key, x).UpdateNeighbours(key, local);
            && w.id == v.id && w.peers == v.peers - {x}
            && RingsHold(key, w, members - {x}) && CacheExact(key, w, members - {x}, local)
  {
    FewerKeysDistinct(key, members + {x}, members + {x, local});
    RemoveKeepsRings(key, v, members, x);
    var once := v.RemovePeer(key, x);
    FewerKeysDistinct(key, members - {x} + {x}, members + {x, local});
    RemoveKeepsRings(key, once, members - {x}, x);
    assert members - {x} - {x} == members - {x};
    FewerKeysDistinct(key, members - {x} + {local}, members + {x, local});
    UpdateIsExact(key, once.RemovePeer(key, x), members - {x}, local);
  }

  lemma NobodyNext(key: RingKeys, members: set<Id>, local: Id)
    requires local !in members || |members| <= 1
    ensures Succs(key, members, local) == {} && Preds(key, members, local) == {}
  {
    forall q | q in members && local in members
      ensures q == local
    {
      assert |members - {local}| == 0;
    }
  }

  lemma NotOwnSuccessor(key: RingKeys, members: set<Id>, p: Id)
    ensures p !in Succs(key, members, p) && p !in Preds(key, members, p)
  {
  }

  /** What makes exactly one completion mechanism possible: being a successor
      and being a predecessor are the two ends of one edge. */
  lemma NeighboursAreMutual(key: RingKeys, members: set<Id>, p: Id, q: Id)
    requires p in members && q in members
    ensures q in Succs(key, members, p) <==> p in Preds(key, members, q)
    ensures q in Succs(key, members, p) + Preds(key, members, p) <==>
            p in Succs(key, members, q) + Preds(key, members, q)
  {
  }

  lemma RingExists(key: RingKeys, i: nat, members: set<Id>) returns (r: seq<Slot>)
    requires KeysDistinctIn(key, i, members)
    ensures IsRing(key, i, r, members)
    decreases |members|
  {
    if members == {} {
      r := [];
    } else {
      var p :| p in members;
      r := RingExists(key, i, members - {p});
      assert members - {p} + {p} == members;
      PutKeepsRing(key, i, r, members - {p}, p);
      r := Put(r, key(i, p), p);
    }
  }

  lemma TheNext(key: RingKeys, i: nat, members: set<Id>, p: Id) returns (q: Id)
    requires KeysDistinctIn(key, i, members) && p in members && |members| > 1
    ensures forall s :: IsNext(key, i, members, p, s) <==> s == q
  {
    var r := RingExists(key, i, members);
    NextOf(key, i, r, members, p);
    q := Next(r, key(i, p)).value;
  }

  lemma {:induction false} UpToRing(key: RingKeys, members: set<Id>, p: Id, n: nat, s: set<Id>)
    requires n <= RINGS_NB && KeysDistinct(key, members) && p in members && |members| > 1
    requires forall q | q in s :: exists i | 0 <= i < n :: IsNext(key, i, members, p, q)
    ensures |s| <= n
  {
    if n == 0 {
      assert s == {};
    } else {
      assert KeysDistinctIn(key, n - 1, members);
      var last := TheNext(key, n - 1, members, p);
      UpToRing(key, members, p, n - 1, s - {last});
    }
  }

  /** At most one successor a ring. */
  lemma AtMostFive(key: RingKeys, members: set<Id>, p: Id)
    requires KeysDistinct(key, members)
    ensures |Succs(key, members, p)| <= RINGS_NB
  {
    if p in members && |members| > 1 {
      UpToRing(key, members, p, RINGS_NB, Succs(key, members, p));
    } else {
      NobodyNext(key, members, p);
    }
  }

  /** Whatever set contains p and passes on to its successors is everybody. */
  lemma SuccessorsReachAll(key: RingKeys, members: set<Id>, reached: set<Id>, p: Id)
    requires KeysDistinct(key, members) && p in reached && reached <= members
    requires forall a | a in reached :: Succs(key, members, a) <= reached
    ensures reached == members
  {
    assert KeysDistinctIn(key, 0, members);
    var r := RingExists(key, 0, members);
    forall a, b | a in reached && IsNext(key, 0, members, a, b)
      ensures b in reached
    {
      assert b in Succs(key, members, a);
    }
    ClosedUnderNextIsAll(key, 0, r, members, reached, p);
  }

  // --------------------------------------------------- splice locality

  /** A member's neighbours change when x is added (or removed again) exactly
      when x is one of its neighbours in the larger set. */
  lemma SpliceLocality(key: RingKeys, members: set<Id>, x: Id, p: Id)
    requires KeysDistinct(key, members + {x}) && x !in members && p in members
    ensures Succs(key, members + {x}, p) == Succs(key, members, p) &&
            Preds(key, members + {x}, p) == Preds(key, members, p)
            <==> x !in Succs(key, members + {x}, p) + Preds(key, members + {x}, p)
  {
    var all := members + {x};
    if x !in Succs(key, all, p) + Preds(key, all, p) {
      forall i, q | 0 <= i < RINGS_NB && q != x
        ensures IsNext(key, i, all, p, q) <==> IsNext(key, i, members, p, q)
        ensures IsNext(key, i, all, q, p) <==> IsNext(key, i, members, q, p)
      {
        SpliceIn(key, i, members, x, p, q);
        SpliceIn(key, i, members, x, q, p);
        assert !IsNext(key, i, all, p, x) && !IsNext(key, i, all, x, p);
      }
      assert Succs(key, all, p) == Succs(key, members, p);
      assert Preds(key, all, p) == Preds(key, members, p);
    } else {
      assert x !in Succs(key, members, p) + Preds(key, members, p);
    }
  }

  // ------------------------------------------------------ the class

  class Group {
    const h: Hash
    const id: Bytes
    var peers: set<Id>
    var predecessors: set<Id>
    var successors: set<Id>
    const rings: seq<Ring>

    ghost predicate Valid()
      reads this
    {
      && |rings| == RINGS_NB
      && (forall i | 0 <= i < RINGS_NB :: rings[i].h == h && rings[i].index == i)
      && (forall i, j | 0 <= i < j < RINGS_NB :: rings[i] != rings[j])
    }

    ghost function Repr(): set<object> {
      {this} + set o: object | o in rings
    }

    ghost function Contents(): (v: View)
      requires Valid()
      reads this, rings
      ensures v.id == id && v.peers == peers && v.predecessors == predecessors && v.successors == successors
      ensures forall i | 0 <= i < RINGS_NB :: v.rings[i] == rings[i].ring
    {
      var now := [rings[0].ring, rings[1].ring, rings[2].ring, rings[3].ring, rings[4].ring];
      View(id, peers, now, predecessors, successors)
    }

    constructor (h: Hash, id: Bytes)
      ensures Valid() && this.h == h && fresh(rings) && Contents() == EmptyView(id)
    {
      this.h, this.id := h, id;
      peers, predecessors, successors := {}, {}, {};
      var r0 := new Ring(h, 0);
      var r1 := new Ring(h, 1);
      var r2 := new Ring(h, 2);
      var r3 := new Ring(h, 3);
      var r4 := new Ring(h, 4);
      rings := [r0, r1, r2, r3, r4];
    }

    method AddToRings(p: Id)
      requires Valid()
      modifies rings
      ensures Valid() && Contents() == old(Contents()).AddToRings(KeysOf(h), p)
    {
      hide Put, FirstNotBelow;
      for i := 0 to RINGS_NB
        invariant forall j | 0 <= j < i :: rings[j].ring == Put(old(rings[j].ring), CreateKey(h, j, p), p)
        invariant forall j | i <= j < RINGS_NB :: rings[j].ring == old(rings[j].ring)
      {
        rings[i].AddPeer(p);
      }
    }

    method AddPeer(p: Id)
      requires Valid()
      modifies this, rings
      ensures Valid() && Contents() == old(Contents()).AddPeer(KeysOf(h), p)
    {
      peers := peers + {p};
      AddToRings(p);
    }

    method RemovePeer(p: Id) returns (found: bool)
      requires Valid()
      modifies this, rings
      ensures Valid() && Contents() == old(Contents()).RemovePeer(KeysOf(h), p)
      ensures found == (p in old(peers))
    {
      hide Erase, FirstNotBelow;
      for i := 0 to RINGS_NB
        modifies rings
        invariant forall j | 0 <= j < i :: rings[j].ring == Erase(old(rings[j].ring), CreateKey(h, j, p))
        invariant forall j | i <= j < RINGS_NB :: rings[j].ring == old(rings[j].ring)
      {
        rings[i].RemovePeer(p);
      }
      found := p in peers;
      peers := peers - {p};
    }

    method UpdateNeighbours(local: Id)
      requires Valid()
      modifies this
      ensures Valid() && Contents() == old(Contents()).UpdateNeighbours(KeysOf(h), local)
    {
      hide Next, Prev, Has, CreateKey;
      var preds: set<Id>, succs: set<Id>, thrown := {}, {}, false;
      ghost var v, key := Contents(), KeysOf(h);
      var i := 0;
      while i < RINGS_NB
        modifies {}
        invariant 0 <= i <= RINGS_NB && !thrown
        invariant FoundUpTo(key, v.rings, local, i)
        invariant preds == PrevSet(key, v.rings, local, i)
        invariant succs == NextSet(key, v.rings, local, i)
      {
        var p := rings[i].GetPredecessor(local);
        var q := rings[i].GetSuccessor(local);
        if p.None? || q.None? {
          assert !FoundUpTo(key, v.rings, local, i + 1);
          thrown := true;
          break;
        }
        preds := preds + {p.value};
        succs := succs + {q.value};
        i := i + 1;
      }
      if thrown {
        predecessors, successors := {}, {};
      } else {
        predecessors, successors := preds, succs;
      }
    }
  }
}
