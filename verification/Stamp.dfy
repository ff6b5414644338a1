/** Message stamps: hash(author || milliseconds || type). */
module Stamping {
  import opened Bytes
  import opened Rings

  function StampInput(author: Id, millis: nat, kind: byte): Bytes {
    author + Itos(millis) + [kind]
  }

  /** make_stamp, with the clock as a parameter. */
  function MakeStamp(h: Hash, author: Id, millis: nat, kind: byte): Digest {
    h(StampInput(author, millis, kind))
  }

  lemma ItosInjective(a: nat, b: nat)
    ensures Itos(a) == Itos(b) <==> a == b
  {
    DecimalInverse(a);
    DecimalInverse(b);
  }

  /** Among ids of one length, the stamped text tells author, time and type. */
  lemma StampInputsDiffer(p: Id, a: nat, k: byte, q: Id, b: nat, l: byte)
    requires |p| == |q|
    ensures StampInput(p, a, k) == StampInput(q, b, l) <==> p == q && a == b && k == l
    ensures p <= StampInput(p, a, k) && StampInput(p, a, k)[|p|..] == Itos(a) + [k]
  {
    var s, t := StampInput(p, a, k), StampInput(q, b, l);
    if s == t {
      assert s[..|p|] == p && t[..|q|] == q;
      assert s[|p|..|s| - 1] == Itos(a) && t[|q|..|t| - 1] == Itos(b);
      assert s[|s| - 1] == k && t[|t| - 1] == l;
      ItosInjective(a, b);
    }
  }

  /** Unless the hash itself collides, two messages get one stamp if and only if
      one author makes two of a type in a millisecond. */
  lemma StampsCollide(h: Hash, p: Id, a: nat, k: byte, q: Id, b: nat, l: byte)
    requires |p| == |q|
    requires h(StampInput(p, a, k)) == h(StampInput(q, b, l)) ==> StampInput(p, a, k) == StampInput(q, b, l)
    ensures MakeStamp(h, p, a, k) == MakeStamp(h, q, b, l) <==> p == q && a == b && k == l
  {
    StampInputsDiffer(p, a, k, q, b, l);
  }

  /** With ids of different lengths even different authors can collide, whatever
      the hash: a trailing digit of an id reads as part of the time. */
  lemma ShortIdsCollide(h: Hash, p: Id, k: byte)
    ensures p + [49] != p && MakeStamp(h, p + [49], 2, k) == MakeStamp(h, p, 12, k)
  {
    assert Itos(2) == [50] && Itos(12) == [49, 50];
    assert (p + [49]) + [50] == p + [49, 50];
    assert |p + [49]| != |p|;
  }
}
