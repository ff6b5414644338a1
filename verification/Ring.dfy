/** A ring: peers in the circular order of hash(id || ring index). */
module Rings {
  import opened Bytes

  type Id = Bytes

  const RINGS_NB := 5

  datatype Option<+T> = None | Some(value: T)

  /** The key that sorts a peer in ring i, as the number the digest spells
      (Bytes.RankKeepsOrder: same order as std::map's order on the digests). */
  function CreateKey(h: Hash, i: nat, id: Id): nat {
    Rank(h(id + Itos(i)))
  }

  /** The keys of all rings at once. The theory below holds for any such
      function; KeysOf(h) is the one the program uses. */
  type RingKeys = (nat, Id) -> nat

  function KeysOf(h: Hash): RingKeys {
    (i: nat, id: Id) => CreateKey(h, i, id)
  }

  /** No two of these ids share a key in ring i. */
  ghost predicate KeysDistinctIn(key: RingKeys, i: nat, ids: set<Id>) {
    forall p, q | p in ids && q in ids && p != q :: key(i, p) != key(i, q)
  }

  ghost predicate KeysDistinct(key: RingKeys, ids: set<Id>) {
    forall i | 0 <= i < RINGS_NB :: KeysDistinctIn(key, i, ids)
  }

  /** The hash tells the keyed texts of ring i apart. */
  ghost predicate Apart(h: Hash, i: nat, ids: set<Id>) {
    forall p, q | p in ids && q in ids && p != q :: h(p + Itos(i)) != h(q + Itos(i))
  }

  lemma KeyIsText(h: Hash, i: nat, p: Id, q: Id)
    ensures KeysOf(h)(i, p) == KeysOf(h)(i, q) <==> h(p + Itos(i)) == h(q + Itos(i))
    ensures p + Itos(i) == q + Itos(i) <==> p == q
  {
    RankKeepsOrder(h(p + Itos(i)), h(q + Itos(i)));
    if p + Itos(i) == q + Itos(i) {
      assert (p + Itos(i))[..|p|] == p && (q + Itos(i))[..|q|] == q;
    }
  }

  /** Distinct ring keys are what a hash without collisions on the ids in play
      gives, no more and no less. */
  lemma DistinctByHash(h: Hash, ids: set<Id>)
    ensures KeysDistinct(KeysOf(h), ids) <==> forall i | 0 <= i < RINGS_NB :: Apart(h, i, ids)
  {
    forall i | 0 <= i < RINGS_NB
      ensures KeysDistinctIn(KeysOf(h), i, ids) <==> Apart(h, i, ids)
    {
      forall p, q
        ensures KeysOf(h)(i, p) == KeysOf(h)(i, q) <==> h(p + Itos(i)) == h(q + Itos(i))
      {
        KeyIsText(h, i, p, q);
      }
    }
  }

  // ------------------------------------------- the std::map, as a sequence

  datatype Slot = Slot(key: nat, id: Id)

  ghost predicate Sorted(r: seq<Slot>) {
    forall j, k | 0 <= j < k < |r| :: r[j].key < r[k].key
  }

  /** The first position from `from` on whose key is not smaller. */
  function FirstNotBelow(r: seq<Slot>, key: nat, from: nat): (k: nat)
    requires from <= |r|
    ensures from <= k <= |r|
    ensures forall j | from <= j < k :: r[j].key < key
    ensures k < |r| ==> r[k].key >= key
    decreases |r| - from
  {
    if from == |r| || r[from].key >= key then from else FirstNotBelow(r, key, from + 1)
  }

  /** Where key is, or where it would be inserted. */
  function LowerBound(r: seq<Slot>, key: nat): (k: nat)
    ensures k <= |r|
    ensures forall j | 0 <= j < k :: r[j].key < key
    ensures k < |r| ==> r[k].key >= key
  {
    FirstNotBelow(r, key, 0)
  }

  predicate Has(r: seq<Slot>, key: nat) {
    var k := LowerBound(r, key);
    k < |r| && r[k].key == key
  }

  /** ring[key] = id */
  function Put(r: seq<Slot>, key: nat, id: Id): seq<Slot> {
    var k := LowerBound(r, key);
    r[..k] + [Slot(key, id)] + r[if Has(r, key) then k + 1 else k..]
  }

  /** erase(find(key)), when found; otherwise the two parts make up r. */
  function Erase(r: seq<Slot>, key: nat): seq<Slot> {
    var k := LowerBound(r, key);
    r[..k] + r[if Has(r, key) then k + 1 else k..]
  }

  /** The id one slot on, wrapping from the last slot to the first. None is the
      PeerNotFoundException: key absent, or nobody else here. */
  function Next(r: seq<Slot>, key: nat): (q: Option<Id>)
    ensures q.Some? <==> Has(r, key) && |r| > 1
  {
    var k := LowerBound(r, key);
    if Has(r, key) && |r| > 1
    then Some(r[if k + 1 == |r| then 0 else k + 1].id)
    else None
  }

  function Prev(r: seq<Slot>, key: nat): (q: Option<Id>)
    ensures q.Some? <==> Has(r, key) && |r| > 1
  {
    var k := LowerBound(r, key);
    if Has(r, key) && |r| > 1
    then Some(r[if k == 0 then |r| - 1 else k - 1].id)
    else None
  }

  /** The mapping a sorted slot sequence stands for. */
  ghost function MapOf(r: seq<Slot>): map<nat, Id>
    requires Sorted(r)
  {
    map k | 0 <= k < |r| :: r[k].key := r[k].id
  }

  lemma Assembled(a: seq<Slot>, mid: seq<Slot>, b: seq<Slot>, key: nat)
    requires Sorted(a) && Sorted(b) && |mid| <= 1
    requires forall s | s in a :: s.key < key
    requires forall s | s in mid :: s.key == key
    requires forall s | s in b :: s.key > key
    ensures Sorted(a + mid + b)
  {
    var t := a + mid + b;
    forall j, k | 0 <= j < k < |t|
      ensures t[j].key < t[k].key
    {
      assert t[j] == if j < |a| then a[j] else if j < |a| + |mid| then mid[j - |a|] else b[j - |a| - |mid|];
      assert t[k] == if k < |a| then a[k] else if k < |a| + |mid| then mid[k - |a|] else b[k - |a| - |mid|];
    }
  }

  lemma SplitElements(r: seq<Slot>, k: nat, m: nat, key: nat, s: Slot)
    requires k <= m <= k + 1 && m <= |r| && (m == k + 1 ==> r[k].key == key)
    requires forall j | 0 <= j < k :: r[j].key < key
    requires forall j | m <= j < |r| :: r[j].key > key
    ensures s in r[..k] ==> s.key < key
    ensures s in r[m..] ==> s.key > key
    ensures s in r && s.key != key <==> s in r[..k] || s in r[m..]
  {
    if s in r && s.key != key {
      var j :| 0 <= j < |r| && r[j] == s;
      assert if j < k then r[..k][j] == s else r[m..][j - m] == s;
    }
  }

  /** r without the slot at key, in two halves. */
  lemma Halves(r: seq<Slot>, key: nat) returns (a: seq<Slot>, b: seq<Slot>)
    requires Sorted(r)
    ensures a == r[..LowerBound(r, key)]
    ensures b == r[if Has(r, key) then LowerBound(r, key) + 1 else LowerBound(r, key)..]
    ensures Sorted(a) && Sorted(b)
    ensures forall s | s in a :: s.key < key
    ensures forall s | s in b :: s.key > key
    ensures forall s :: s in r && s.key != key <==> s in a || s in b
  {
    var k := LowerBound(r, key);
    var m := if Has(r, key) then k + 1 else k;
    a, b := r[..k], r[m..];
    forall s
      ensures s in a ==> s.key < key
      ensures s in b ==> s.key > key
      ensures s in r && s.key != key <==> s in a || s in b
    {
      SplitElements(r, k, m, key, s);
    }
  }

  lemma PutElements(r: seq<Slot>, key: nat, id: Id)
    requires Sorted(r)
    ensures Sorted(Put(r, key, id))
    ensures forall s :: s in Put(r, key, id) <==> s == Slot(key, id) || (s in r && s.key != key)
  {
    var a, b := Halves(r, key);
    Assembled(a, [Slot(key, id)], b, key);
  }

  lemma EraseElements(r: seq<Slot>, key: nat)
    requires Sorted(r)
    ensures Sorted(Erase(r, key))
    ensures forall s :: s in Erase(r, key) <==> s in r && s.key != key
  {
    var a, b := Halves(r, key);
    Assembled(a, [], b, key);
    assert a + [] == a;
  }

  lemma MapOfElements(r: seq<Slot>, m: map<nat, Id>)
    requires Sorted(r)
    requires forall s :: s in r <==> s.key in m && m[s.key] == s.id
    ensures MapOf(r) == m
  {
    forall k | k in m
      ensures k in MapOf(r)
    {
      assert Slot(k, m[k]) in r;
    }
    forall k | k in MapOf(r)
      ensures k in m && m[k] == MapOf(r)[k]
    {
      var j :| 0 <= j < |r| && r[j].key == k;
      assert r[j] in r;
    }
  }

  lemma MapOfHas(r: seq<Slot>, s: Slot)
    requires Sorted(r)
    ensures s in r <==> s.key in MapOf(r) && MapOf(r)[s.key] == s.id
  {
  }

  /** Put and Erase are map update and map removal, whatever collides. */
  lemma PutIsMapUpdate(r: seq<Slot>, key: nat, id: Id)
    requires Sorted(r)
    ensures Sorted(Put(r, key, id)) && MapOf(Put(r, key, id)) == MapOf(r)[key := id]
  {
    PutElements(r, key, id);
    forall s
      ensures s in Put(r, key, id) <==> s.key in MapOf(r)[key := id] && MapOf(r)[key := id][s.key] == s.id
    {
      MapOfHas(r, s);
    }
    MapOfElements(Put(r, key, id), MapOf(r)[key := id]);
  }

  lemma EraseIsMapRemoval(r: seq<Slot>, key: nat)
    requires Sorted(r)
    ensures Sorted(Erase(r, key)) && MapOf(Erase(r, key)) == MapOf(r) - {key}
  {
    EraseElements(r, key);
    forall s
      ensures s in Erase(r, key) <==> s.key in MapOf(r) - {key} && (MapOf(r) - {key})[s.key] == s.id
    {
      MapOfHas(r, s);
    }
    MapOfElements(Erase(r, key), MapOf(r) - {key});
  }

  // --------------------------------------------- a ring of a set of members

  /** r is ring i of the members: sorted, one slot a member, each at its key. */
  ghost predicate IsRing(key: RingKeys, i: nat, r: seq<Slot>, members: set<Id>) {
    && Sorted(r)
    && forall s :: s in r <==> s.id in members && s.key == key(i, s.id)
  }

  lemma MemberHasSlot(key: RingKeys, i: nat, r: seq<Slot>, members: set<Id>, p: Id)
    requires IsRing(key, i, r, members)
    ensures p in members ==> Has(r, key(i, p)) && r[LowerBound(r, key(i, p))].id == p
    ensures p !in members && KeysDistinctIn(key, i, members + {p}) ==> !Has(r, key(i, p))
  {
    var kp := key(i, p);
    if p in members {
      assert Slot(kp, p) in r;
      var j :| 0 <= j < |r| && r[j] == Slot(kp, p);
      assert LowerBound(r, kp) == j;
    } else if Has(r, kp) {
      assert r[LowerBound(r, kp)] in r;
    }
  }

  lemma PutKeepsRing(key: RingKeys, i: nat, r: seq<Slot>, members: set<Id>, p: Id)
    requires IsRing(key, i, r, members)
    requires KeysDistinctIn(key, i, members + {p})
    ensures IsRing(key, i, Put(r, key(i, p), p), members + {p})
  {
    PutElements(r, key(i, p), p);
  }

  lemma EraseKeepsRing(key: RingKeys, i: nat, r: seq<Slot>, members: set<Id>, p: Id)
    requires IsRing(key, i, r, members)
    requires KeysDistinctIn(key, i, members + {p})
    ensures IsRing(key, i, Erase(r, key(i, p)), members - {p})
  {
    EraseElements(r, key(i, p));
  }

  lemma {:induction false} SortedUnique(a: seq<Slot>, b: seq<Slot>)
    requires Sorted(a) && Sorted(b)
    requires forall s :: s in a <==> s in b
    ensures a == b
  {
    assert a != [] ==> a[0] in b;
    assert b != [] ==> b[0] in a;
    if a != [] {
      assert a[0] in b && b[0] in a;
      assert a[0] == b[0];
      forall s
        ensures s in a[1..] <==> s in b[1..]
      {
        assert s in a[1..] <==> s in a && s != a[0];
        assert s in b[1..] <==> s in b && s != b[0];
      }
      SortedUnique(a[1..], b[1..]);
      assert a == [a[0]] + a[1..] && b == [b[0]] + b[1..];
    }
  }

  /** View agreement: two rings of the same members are the same sequence,
      whatever additions and removals led there. */
  lemma SameMembersSameRing(key: RingKeys, i: nat, a: seq<Slot>, b: seq<Slot>, members: set<Id>)
    requires IsRing(key, i, a, members) && IsRing(key, i, b, members)
    ensures a == b
  {
    SortedUnique(a, b);
  }

  // ------------------------------------- what being the successor means

  /** Going round from a, b comes strictly before c. */
  predicate Between(a: nat, b: nat, c: nat) {
    a < b < c || b < c < a || c < a < b
  }

  /** q is met first when going round ring i from p: the reference definition
      of successor, which mentions neither order of insertion nor positions. */
  ghost predicate IsNext(key: RingKeys, i: nat, members: set<Id>, p: Id, q: Id) {
    && p in members && q in members && p != q
    && forall t | t in members ::
      !Between(key(i, p), key(i, t), key(i, q))
  }

  lemma NextIsNext(key: RingKeys, i: nat, r: seq<Slot>, members: set<Id>, p: Id, q: Id)
    requires IsRing(key, i, r, members) && p in members
    ensures Next(r, key(i, p)) == Some(q) <==> IsNext(key, i, members, p, q)
  {
    var k := LowerBound(r, key(i, p));
    MemberHasSlot(key, i, r, members, p);
    if |r| > 1 {
      var m := if k + 1 == |r| then 0 else k + 1;
      var n := r[m].id;
      assert r[m] in r && r[k] in r;
      forall t | t in members
        ensures !Between(key(i, p), key(i, t), key(i, n))
      {
        MemberHasSlot(key, i, r, members, t);
      }
      assert IsNext(key, i, members, p, n);
      if IsNext(key, i, members, p, q) {
        MemberHasSlot(key, i, r, members, q);
        assert q == n;
      }
    } else if IsNext(key, i, members, p, q) {
      MemberHasSlot(key, i, r, members, q);
      assert false;
    }
  }

  lemma PrevIsNext(key: RingKeys, i: nat, r: seq<Slot>, members: set<Id>, q: Id, p: Id)
    requires IsRing(key, i, r, members) && q in members
    ensures Prev(r, key(i, q)) == Some(p) <==> IsNext(key, i, members, p, q)
  {
    var k := LowerBound(r, key(i, q));
    MemberHasSlot(key, i, r, members, q);
    if |r| > 1 {
      var m := if k == 0 then |r| - 1 else k - 1;
      var n := r[m].id;
      assert r[m] in r && r[k] in r;
      forall t | t in members
        ensures !Between(key(i, n), key(i, t), key(i, q))
      {
        MemberHasSlot(key, i, r, members, t);
      }
      assert IsNext(key, i, members, n, q);
      if IsNext(key, i, members, p, q) {
        MemberHasSlot(key, i, r, members, p);
        assert p == n;
      }
    } else if IsNext(key, i, members, p, q) {
      MemberHasSlot(key, i, r, members, p);
      assert false;
    }
  }

  /** get_predecessor and get_successor undo each other, across the wrap too. */
  lemma PrevUndoesNext(key: RingKeys, i: nat, r: seq<Slot>, members: set<Id>, p: Id, q: Id)
    requires IsRing(key, i, r, members) && p in members && q in members
    ensures Next(r, key(i, p)) == Some(q) <==> Prev(r, key(i, q)) == Some(p)
  {
    NextIsNext(key, i, r, members, p, q);
    PrevIsNext(key, i, r, members, q, p);
  }

  // ----------------------------------------- the order of the digests

  /** Ring keys are ordered as the digests are, as strings. */
  lemma KeysKeepOrder(h: Hash, i: nat, p: Id, q: Id)
    ensures KeysOf(h)(i, p) < KeysOf(h)(i, q) <==> Less(h(p + Itos(i)), h(q + Itos(i)))
  {
    RankKeepsOrder(h(p + Itos(i)), h(q + Itos(i)));
  }

  /** Of all digests in ring i but p's own, q's is the least one above p's, or
      if none is above, the least of all. */
  ghost predicate NextDigest(h: Hash, i: nat, members: set<Id>, p: Id, q: Id) {
    && q in members && q != p
    && if exists t :: t in members && Less(h(p + Itos(i)), h(t + Itos(i))) then
         && Less(h(p + Itos(i)), h(q + Itos(i)))
         && forall t | t in members && t != q && Less(h(p + Itos(i)), h(t + Itos(i))) ::
           Less(h(q + Itos(i)), h(t + Itos(i)))
       else forall t | t in members && t != q :: Less(h(q + Itos(i)), h(t + Itos(i)))
  }

  /** Of all digests in ring i but p's own, q's is the greatest one below p's, or
      if none is below, the greatest of all. */
  ghost predicate PreviousDigest(h: Hash, i: nat, members: set<Id>, p: Id, q: Id) {
    && q in members && q != p
    && if exists t :: t in members && Less(h(t + Itos(i)), h(p + Itos(i))) then
         && Less(h(q + Itos(i)), h(p + Itos(i)))
         && forall t | t in members && t != q && Less(h(t + Itos(i)), h(p + Itos(i))) ::
           Less(h(t + Itos(i)), h(q + Itos(i)))
       else forall t | t in members && t != q :: Less(h(t + Itos(i)), h(q + Itos(i)))
  }

  /** No two members of a ring share a key: the map has a slot for each. */
  lemma RingKeysDiffer(key: RingKeys, i: nat, r: seq<Slot>, members: set<Id>, p: Id, q: Id)
    requires IsRing(key, i, r, members) && p in members && q in members && p != q
    ensures key(i, p) != key(i, q)
  {
    MemberHasSlot(key, i, r, members, p);
    MemberHasSlot(key, i, r, members, q);
  }

  /** get_successor goes to the next digest up, and from the greatest to the
      least. */
  lemma SuccessorByDigest(h: Hash, i: nat, r: seq<Slot>, members: set<Id>, p: Id, q: Id)
    requires IsRing(KeysOf(h), i, r, members) && p in members
    ensures Next(r, KeysOf(h)(i, p)) == Some(q) <==> NextDigest(h, i, members, p, q)
  {
    hide Next, IsRing;
    NextIsNext(KeysOf(h), i, r, members, p, q);
    DigestsAreKeys(h, i, r, members);
    UpwardIsNext(KeysOf(h), i, members, p, q);
  }

  /** get_predecessor goes to the next digest down, and from the least to the
      greatest. */
  lemma PredecessorByDigest(h: Hash, i: nat, r: seq<Slot>, members: set<Id>, p: Id, q: Id)
    requires IsRing(KeysOf(h), i, r, members) && p in members
    ensures Prev(r, KeysOf(h)(i, p)) == Some(q) <==> PreviousDigest(h, i, members, p, q)
  {
    hide Prev, IsRing;
    PrevIsNext(KeysOf(h), i, r, members, p, q);
    DigestsAreKeys(h, i, r, members);
    DownwardIsNext(KeysOf(h), i, members, p, q);
  }

  lemma DigestsAreKeys(h: Hash, i: nat, r: seq<Slot>, members: set<Id>)
    requires IsRing(KeysOf(h), i, r, members)
    ensures forall p, q :: Less(h(p + Itos(i)), h(q + Itos(i))) <==> KeysOf(h)(i, p) < KeysOf(h)(i, q)
    ensures KeysDistinctIn(KeysOf(h), i, members)
  {
    forall p, q
      ensures Less(h(p + Itos(i)), h(q + Itos(i))) <==> KeysOf(h)(i, p) < KeysOf(h)(i, q)
    {
      KeysKeepOrder(h, i, p, q);
    }
    forall p, q | p in members && q in members && p != q
      ensures KeysOf(h)(i, p) != KeysOf(h)(i, q)
    {
      RingKeysDiffer(KeysOf(h), i, r, members, p, q);
    }
  }

  /** Going up from p, and round from the top. */
  lemma UpwardIsNext(key: RingKeys, i: nat, members: set<Id>, p: Id, q: Id)
    requires KeysDistinctIn(key, i, members) && p in members
    ensures IsNext(key, i, members, p, q) <==>
            && q in members && q != p
            && if exists t :: t in members && key(i, p) < key(i, t) then
                 && key(i, p) < key(i, q)
                 && forall t | t in members && t != q && key(i, p) < key(i, t) :: key(i, q) < key(i, t)
               else forall t | t in members && t != q :: key(i, q) < key(i, t)
  {
  }

  lemma DownwardIsNext(key: RingKeys, i: nat, members: set<Id>, p: Id, q: Id)
    requires KeysDistinctIn(key, i, members) && p in members
    ensures IsNext(key, i, members, q, p) <==>
            && q in members && q != p
            && if exists t :: t in members && key(i, t) < key(i, p) then
                 && key(i, q) < key(i, p)
                 && forall t | t in members && t != q && key(i, t) < key(i, p) :: key(i, t) < key(i, q)
               else forall t | t in members && t != q :: key(i, t) < key(i, q)
  {
  }

  // --------------------------------------------------------- one cycle

  /** get_successor of ring i, as a function of the peer. */
  function Successor(key: RingKeys, i: nat, r: seq<Slot>): Id -> Option<Id> {
    (p: Id) => Next(r, key(i, p))
  }

  /** Who is reached from p by following step k times. */
  ghost function Walk(step: Id -> Option<Id>, p: Id, k: nat): Option<Id> {
    if k == 0 then Some(p)
    else match Walk(step, p, k - 1)
      case None => None
      case Some(q) => step(q)
  }

  function Wrap(n: nat, a: nat): (j: nat)
    requires 0 < n && a <= 2 * n - 1
    ensures j < n
  {
    if a < n then a else a - n
  }

  ghost predicate GoesRound(step: Id -> Option<Id>, ids: seq<Id>) {
    forall m {:trigger step(ids[m])} | 0 <= m < |ids| :: step(ids[m]) == Some(ids[Wrap(|ids|, m + 1)])
  }

  lemma {:induction false} WalkPosition(step: Id -> Option<Id>, ids: seq<Id>, j: nat, k: nat)
    requires |ids| > 1 && GoesRound(step, ids)
    requires j < |ids| && k <= |ids|
    ensures Walk(step, ids[j], k) == Some(ids[Wrap(|ids|, j + k)])
  {
    if k > 0 {
      WalkPosition(step, ids, j, k - 1);
    }
  }

  function IdsOf(r: seq<Slot>): (ids: seq<Id>)
    ensures |ids| == |r|
  {
    seq(|r|, j requires 0 <= j < |r| => r[j].id)
  }

  lemma RingGoesRound(key: RingKeys, i: nat, r: seq<Slot>, members: set<Id>)
    requires IsRing(key, i, r, members) && |r| > 1
    ensures GoesRound(Successor(key, i, r), IdsOf(r))
    ensures forall j, k | 0 <= j < k < |r| :: IdsOf(r)[j] != IdsOf(r)[k]
    ensures forall p :: p in members <==> p in IdsOf(r)
  {
    forall m | 0 <= m < |r|
      ensures Successor(key, i, r)(IdsOf(r)[m]) == Some(IdsOf(r)[Wrap(|r|, m + 1)])
      ensures IdsOf(r)[m] in members
    {
      assert r[m] in r;
      assert LowerBound(r, r[m].key) == m;
    }
    forall j, k | 0 <= j < k < |r|
      ensures IdsOf(r)[j] != IdsOf(r)[k]
    {
      assert r[j] in r && r[k] in r;
    }
    forall p | p in members
      ensures p in IdsOf(r)
    {
      MemberHasSlot(key, i, r, members, p);
      assert IdsOf(r)[LowerBound(r, key(i, p))] == p;
    }
  }

  lemma {:induction false} DistinctSize(ids: seq<Id>, members: set<Id>)
    requires forall j, k | 0 <= j < k < |ids| :: ids[j] != ids[k]
    requires forall p :: p in members <==> p in ids
    ensures |ids| == |members|
  {
    if ids == [] {
      assert members == {};
    } else {
      var p, rest := ids[|ids| - 1], ids[..|ids| - 1];
      assert ids == rest + [p];
      DistinctSize(rest, members - {p});
    }
  }

  lemma RingSize(key: RingKeys, i: nat, r: seq<Slot>, members: set<Id>)
    requires IsRing(key, i, r, members)
    ensures |r| == |members|
  {
    forall j, k | 0 <= j < k < |r|
      ensures IdsOf(r)[j] != IdsOf(r)[k]
    {
      assert r[j] in r && r[k] in r;
    }
    forall p
      ensures p in members <==> p in IdsOf(r)
    {
      MemberHasSlot(key, i, r, members, p);
      if p in members {
        assert IdsOf(r)[LowerBound(r, key(i, p))] == p;
      }
      if p in IdsOf(r) {
        var j :| 0 <= j < |r| && IdsOf(r)[j] == p;
        assert r[j] in r;
      }
    }
    DistinctSize(IdsOf(r), members);
  }

  lemma {:induction false} WalksDiffer(step: Id -> Option<Id>, ids: seq<Id>, a: nat, j: nat, k: nat)
    requires |ids| > 1 && GoesRound(step, ids) && a < |ids| && j < k < |ids|
    requires forall j, k | 0 <= j < k < |ids| :: ids[j] != ids[k]
    ensures Walk(step, ids[a], j) != Walk(step, ids[a], k)
  {
    WalkPosition(step, ids, a, j);
    WalkPosition(step, ids, a, k);
    var x, y := Wrap(|ids|, a + j), Wrap(|ids|, a + k);
    assert x < y || y < x;
  }

  lemma {:induction false} WalkMeets(step: Id -> Option<Id>, ids: seq<Id>, a: nat, b: nat) returns (k: nat)
    requires |ids| > 1 && GoesRound(step, ids) && a < |ids| && b < |ids|
    ensures k < |ids| && Walk(step, ids[a], k) == Some(ids[b])
  {
    k := if a <= b then b - a else b - a + |ids|;
    WalkPosition(step, ids, a, k);
  }

  /** Following step from p visits every member once and is back after as many
      steps as there are members. */
  ghost predicate VisitsAll(step: Id -> Option<Id>, members: set<Id>, p: Id) {
    && Walk(step, p, |members|) == Some(p)
    && (forall j, k | 0 <= j < k < |members| :: Walk(step, p, j) != Walk(step, p, k))
    && (forall q | q in members :: exists k | 0 <= k < |members| :: Walk(step, p, k) == Some(q))
  }

  lemma RoundVisitsAll(step: Id -> Option<Id>, ids: seq<Id>, members: set<Id>, a: nat)
    requires |ids| > 1 && GoesRound(step, ids) && a < |ids| && |ids| == |members|
    requires forall j, k | 0 <= j < k < |ids| :: ids[j] != ids[k]
    requires forall p | p in members :: p in ids
    ensures VisitsAll(step, members, ids[a])
  {
    WalkPosition(step, ids, a, |ids|);
    forall j, k | 0 <= j < k < |members|
      ensures Walk(step, ids[a], j) != Walk(step, ids[a], k)
    {
      WalksDiffer(step, ids, a, j, k);
    }
    forall q | q in members
      ensures exists k | 0 <= k < |members| :: Walk(step, ids[a], k) == Some(q)
    {
      var b :| 0 <= b < |ids| && ids[b] == q;
      var k := WalkMeets(step, ids, a, b);
    }
  }

  /** Each ring is one cycle. */
  lemma OneCycle(key: RingKeys, i: nat, r: seq<Slot>, members: set<Id>, p: Id)
    requires IsRing(key, i, r, members) && p in members && |members| > 1
    ensures VisitsAll(Successor(key, i, r), members, p)
  {
    RingSize(key, i, r, members);
    RingGoesRound(key, i, r, members);
    var a :| 0 <= a < |r| && IdsOf(r)[a] == p;
    RoundVisitsAll(Successor(key, i, r), IdsOf(r), members, a);
  }

  lemma {:induction false} WalkStaysIn(step: Id -> Option<Id>, reached: set<Id>, p: Id, k: nat)
    requires p in reached
    requires forall a | a in reached && step(a).Some? :: step(a).value in reached
    ensures Walk(step, p, k).Some? ==> Walk(step, p, k).value in reached
  {
    if k > 0 {
      WalkStaysIn(step, reached, p, k - 1);
    }
  }

  /** If whoever is reached passes on to its successor, everybody is reached. */
  lemma ClosedUnderNextIsAll(key: RingKeys, i: nat, r: seq<Slot>, members: set<Id>, reached: set<Id>, p: Id)
    requires IsRing(key, i, r, members) && p in reached && reached <= members
    requires forall a, b | a in reached && IsNext(key, i, members, a, b) :: b in reached
    ensures reached == members
  {
    var step := Successor(key, i, r);
    forall a | a in reached && step(a).Some?
      ensures step(a).value in reached
    {
      NextIsNext(key, i, r, members, a, step(a).value);
    }
    forall q | q in members && q != p
      ensures q in reached
    {
      if |members| > 1 {
        OneCycle(key, i, r, members, p);
        var k :| 0 <= k < |members| && Walk(step, p, k) == Some(q);
        WalkStaysIn(step, reached, p, k);
      } else {
        assert |members - {p}| == 0;
      }
    }
  }

  // ------------------------------------------------------------ splicing

  /** Adding x changes the successor of x's new predecessor only, to x; whoever
      had that successor before has it still. */
  lemma SpliceIn(key: RingKeys, i: nat, members: set<Id>, x: Id, p: Id, q: Id)
    requires KeysDistinctIn(key, i, members + {x}) && x !in members && p != x && q != x
    ensures IsNext(key, i, members + {x}, p, q) <==>
            IsNext(key, i, members, p, q) && !IsNext(key, i, members + {x}, p, x)
    ensures IsNext(key, i, members + {x}, p, q) <==>
            IsNext(key, i, members, p, q) && !IsNext(key, i, members + {x}, x, q)
    ensures IsNext(key, i, members + {x}, p, x) && IsNext(key, i, members + {x}, x, q) && p != q
            ==> IsNext(key, i, members, p, q)
  {
    var all := members + {x};
    var kp, kq, kx := key(i, p), key(i, q), key(i, x);
    if IsNext(key, i, members, p, q) {
      if Between(kp, kx, kq) {
        forall t | t in all
          ensures !Between(kp, key(i, t), kx) && !Between(kx, key(i, t), kq)
        {
        }
      } else {
        assert q in all && p in all;
        assert Between(kp, kq, kx) && Between(kx, kp, kq);
      }
    }
  }

  class Ring {
    const h: Hash
    const index: nat
    var ring: seq<Slot>

    constructor (h: Hash, index: nat)
      ensures this.h == h && this.index == index && ring == []
    {
      this.h, this.index, ring := h, index, [];
    }

    method AddPeer(id: Id)
      modifies this
      ensures ring == Put(old(ring), CreateKey(h, index, id), id)
    {
      var key := CreateKey(h, index, id);
      var k := LowerBound(ring, key);
      if k < |ring| && ring[k].key == key {
        ring := ring[..k] + [Slot(key, id)] + ring[k + 1..];
      } else {
        ring := ring[..k] + [Slot(key, id)] + ring[k..];
      }
    }

    /** The position of the peer, or the end. */
    method FindPeer(id: Id) returns (k: nat)
      ensures k == if Has(ring, CreateKey(h, index, id)) then LowerBound(ring, CreateKey(h, index, id)) else |ring|
    {
      var key := CreateKey(h, index, id);
      k := LowerBound(ring, key);
      if k < |ring| && ring[k].key != key {
        k := |ring|;
      }
    }

    method RemovePeer(id: Id)
      modifies this
      ensures ring == Erase(old(ring), CreateKey(h, index, id))
    {
      var k := FindPeer(id);
      if k < |ring| {
        ring := ring[..k] + ring[k + 1..];
      } else {
        ghost var j := LowerBound(ring, CreateKey(h, index, id));
        assert ring == ring[..j] + ring[j..];
      }
    }

    method GetSuccessor(id: Id) returns (q: Option<Id>)
      ensures q == Next(ring, CreateKey(h, index, id))
      ensures forall members, s | IsRing(KeysOf(h), index, ring, members) && id in members ::
        q == Some(s) <==> NextDigest(h, index, members, id, s)
    {
      var k := FindPeer(id);
      if k < |ring| && |ring| > 1 {
        q := Some(if k + 1 != |ring| then ring[k + 1].id else ring[0].id);
      } else {
        q := None;
      }
      forall members, s | IsRing(KeysOf(h), index, ring, members) && id in members
        ensures q == Some(s) <==> NextDigest(h, index, members, id, s)
      {
        SuccessorByDigest(h, index, ring, members, id, s);
      }
    }

    method GetPredecessor(id: Id) returns (q: Option<Id>)
      ensures q == Prev(ring, CreateKey(h, index, id))
      ensures forall members, s | IsRing(KeysOf(h), index, ring, members) && id in members ::
        q == Some(s) <==> PreviousDigest(h, index, members, id, s)
    {
      var k := FindPeer(id);
      if k < |ring| && |ring| > 1 {
        q := Some(if k != 0 then ring[k - 1].id else ring[|ring| - 1].id);
      } else {
        q := None;
      }
      forall members, s | IsRing(KeysOf(h), index, ring, members) && id in members
        ensures q == Some(s) <==> PreviousDigest(h, index, members, id, s)
      {
        PredecessorByDigest(h, index, ring, members, id, s);
      }
    }
  }
}
