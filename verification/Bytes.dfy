/** Byte strings as std::string holds them: the order std::map uses on them, and
    the decimal text that ports and ring indices take on the wire. */
module Bytes {

  type byte = x: int | 0 <= x < 256

  type Bytes = seq<byte>

  const DIGEST_LENGTH := 20

  /** What make_hash returns: always DIGESTSIZE bytes. */
  type Digest = d: Bytes | |d| == DIGEST_LENGTH witness seq(DIGEST_LENGTH, _ => 0)

  /** SHA-1, kept abstract: every theorem holds for any function of this type. */
  type Hash = Bytes -> Digest

  // ---------------------------------------------------------------- order

  /** std::string::operator<: lexicographic, a proper prefix is smaller. */
  predicate Less(a: Bytes, b: Bytes) {
    b != [] && (a == [] || a[0] < b[0] || (a[0] == b[0] && Less(a[1..], b[1..])))
  }

  /** a and b agree before position k, and there a has the smaller byte. */
  ghost predicate SmallerAt(a: Bytes, b: Bytes, k: nat) {
    k < |a| && k < |b| && a[..k] == b[..k] && a[k] < b[k]
  }

  lemma SameHead(a: Bytes, b: Bytes, k: nat)
    requires 0 < k <= |a| && k <= |b| && a[..k] == b[..k]
    ensures a[0] == b[0]
  {
    assert a[..k][0] == a[0] && b[..k][0] == b[0];
  }

  /** The order is decided by the first byte in which the strings differ, and
      only if there is none by their lengths. */
  lemma {:induction false} FirstDifferenceDecides(a: Bytes, b: Bytes)
    ensures Less(a, b) <==> a < b || exists k :: SmallerAt(a, b, k)
  {
    if a != [] && b != [] {
      FirstDifferenceDecides(a[1..], b[1..]);
      assert a == [a[0]] + a[1..] && b == [b[0]] + b[1..];
      assert a[0] < b[0] ==> SmallerAt(a, b, 0);
      if a[0] == b[0] {
        forall k: nat | SmallerAt(a[1..], b[1..], k)
          ensures SmallerAt(a, b, k + 1)
        {
          assert a[..k + 1] == [a[0]] + a[1..][..k] && b[..k + 1] == [b[0]] + b[1..][..k];
        }
        forall k: nat | SmallerAt(a, b, k)
          ensures k > 0 && SmallerAt(a[1..], b[1..], k - 1)
        {
          assert a[1..][..k - 1] == a[..k][1..] && b[1..][..k - 1] == b[..k][1..];
        }
      } else {
        forall k: nat | SmallerAt(a, b, k)
          ensures k == 0
        {
          if k > 0 {
            SameHead(a, b, k);
          }
        }
      }
    }
  }

  function Pow256(n: nat): (p: nat)
    ensures p > 0
  {
    if n == 0 then 1 else 256 * Pow256(n - 1)
  }

  /** The big-endian number a byte string spells. */
  function Rank(b: Bytes): nat {
    if b == [] then 0 else b[0] * Pow256(|b| - 1) + Rank(b[1..])
  }

  lemma TimesMonotone(x: nat, y: nat, p: nat)
    requires x <= y
    ensures x * p <= y * p
  {
  }

  lemma {:induction false} RankBound(b: Bytes)
    ensures Rank(b) < Pow256(|b|)
  {
    if b != [] {
      RankBound(b[1..]);
      TimesMonotone(b[0], 255, Pow256(|b| - 1));
    }
  }

  lemma HeadDecides(a: Bytes, b: Bytes)
    requires |a| == |b| > 0 && a[0] < b[0]
    ensures Rank(a) < Rank(b)
  {
    var p := Pow256(|a| - 1);
    RankBound(a[1..]);
    TimesMonotone(a[0] + 1, b[0], p);
    assert (a[0] + 1) * p == a[0] * p + p;
  }

  /** On digests, which all have one length, the order of the strings is the
      order of the numbers. This is why ring keys can be compared as numbers. */
  lemma {:induction false} RankKeepsOrder(a: Bytes, b: Bytes)
    requires |a| == |b|
    ensures Less(a, b) <==> Rank(a) < Rank(b)
    ensures Rank(a) == Rank(b) <==> a == b
  {
    if a == [] {
    } else if a[0] < b[0] {
      HeadDecides(a, b);
    } else if b[0] < a[0] {
      HeadDecides(b, a);
    } else {
      RankKeepsOrder(a[1..], b[1..]);
      assert a == [a[0]] + a[1..] && b == [b[0]] + b[1..];
    }
  }

  lemma {:induction false} LessTotal(a: Bytes, b: Bytes)
    ensures a == b || Less(a, b) || Less(b, a)
    ensures !(Less(a, b) && Less(b, a)) && !Less(a, a)
  {
    if a != [] && b != [] {
      LessTotal(a[1..], b[1..]);
      LessTotal(a[1..], a[1..]);
      assert a == [a[0]] + a[1..] && b == [b[0]] + b[1..];
    } else if a != [] {
      LessTotal(a[1..], a[1..]);
    }
  }

  lemma {:induction false} LessTransitive(a: Bytes, b: Bytes, c: Bytes)
    requires Less(a, b) && Less(b, c)
    ensures Less(a, c)
  {
    if a != [] && a[0] == b[0] == c[0] {
      LessTransitive(a[1..], b[1..], c[1..]);
    }
  }

  // -------------------------------------------------------------- decimal

  predicate IsDigit(c: byte) { 48 <= c <= 57 }

  /** itos on a non-negative number. */
  function Itos(n: nat): (s: Bytes)
    ensures s != [] && forall c | c in s :: IsDigit(c)
  {
    if n < 10 then [48 + n] else Itos(n / 10) + [48 + n % 10]
  }

  /** The digits at the front of s. */
  function DigitRun(s: Bytes): (d: Bytes)
    ensures d <= s && forall c | c in d :: IsDigit(c)
    ensures |d| < |s| ==> !IsDigit(s[|d|])
  {
    if s != [] && IsDigit(s[0]) then [s[0]] + DigitRun(s[1..]) else []
  }

  function DecimalValue(s: Bytes): nat
    requires forall c | c in s :: IsDigit(c)
  {
    if s == [] then 0
    else
      assert IsDigit(s[|s| - 1]);
      var last: int := s[|s| - 1];
      DecimalValue(s[..|s| - 1]) * 10 + (last - 48)
  }

  lemma {:induction false} DecimalInverse(n: nat)
    ensures DecimalValue(Itos(n)) == n
  {
    if n >= 10 {
      DecimalInverse(n / 10);
      assert Itos(n)[..|Itos(n)| - 1] == Itos(n / 10);
    } else {
      assert Itos(n)[..0] == [];
    }
  }

  function Pow10(n: nat): (p: nat)
    ensures p > 0
  {
    if n == 0 then 1 else 10 * Pow10(n - 1)
  }

  /** The value of a digit string is the sum of its digits at their places. */
  lemma {:induction false} DecimalByPlaces(s: Bytes)
    requires s != [] && forall c | c in s :: IsDigit(c)
    ensures 48 <= s[0] <= 57 && forall c | c in s[1..] :: IsDigit(c)
    ensures DecimalValue(s) == (s[0] - 48) * Pow10(|s| - 1) + DecimalValue(s[1..])
  {
    hide DecimalValue;
    assert s[0] in s && s[|s| - 1] in s && forall c | c in s[1..] :: c in s;
    LastDigit(s);
    if |s| > 1 {
      var t := s[..|s| - 1];
      DecimalByPlaces(t);
      LastDigit(s[1..]);
      assert t[1..] == s[1..][..|s| - 2] && Pow10(|s| - 1) == 10 * Pow10(|s| - 2);
      TenTimes(s[0] - 48, Pow10(|s| - 2));
    } else {
      LastDigit([]);
    }
  }

  lemma TenTimes(x: nat, p: nat)
    ensures 10 * (x * p) == x * (10 * p)
  {
  }

  lemma LastDigit(s: Bytes)
    requires forall c | c in s :: IsDigit(c)
    ensures s == [] ==> DecimalValue(s) == 0
    ensures s != [] ==>
      && (forall c | c in s[..|s| - 1] :: IsDigit(c)) && 48 <= s[|s| - 1] <= 57
      && DecimalValue(s) == 10 * DecimalValue(s[..|s| - 1]) + (s[|s| - 1] - 48)
  {
    if s != [] {
      assert s[|s| - 1] in s && forall c | c in s[..|s| - 1] :: c in s;
    }
  }

  lemma {:induction false} NotZero(s: Bytes)
    requires s != [] && (forall c | c in s :: IsDigit(c)) && s[0] != 48
    ensures DecimalValue(s) > 0
  {
    assert s[0] in s && s[|s| - 1] in s;
    if |s| > 1 {
      assert forall c | c in s[..|s| - 1] :: c in s;
      NotZero(s[..|s| - 1]);
    }
  }

  /** itos writes the one digit string of that value that does not start with a
      zero it could do without. */
  lemma {:induction false} ItosIsDecimal(n: nat, s: Bytes)
    ensures s == Itos(n) <==>
            && s != [] && (forall c | c in s :: 48 <= c <= 57) && (|s| > 1 ==> s[0] != 48)
            && DecimalValue(s) == n
    decreases |s|
  {
    if s == Itos(n) {
      DecimalInverse(n);
      if |s| > 1 {
        var t := s[..|s| - 1];
        assert t == Itos(n / 10);
        ItosIsDecimal(n / 10, t);
        if |t| == 1 {
          assert t == [48 + n / 10];
        }
      }
    } else if s != [] && (forall c | c in s :: 48 <= c <= 57) && (|s| > 1 ==> s[0] != 48) && DecimalValue(s) == n {
      assert forall c | c in s :: IsDigit(c);
      assert s[|s| - 1] in s;
      if |s| > 1 {
        var t := s[..|s| - 1];
        assert forall c | c in t :: c in s;
        NotZero(t);
        ItosIsDecimal(n / 10, t);
      }
    }
  }

  lemma {:induction false} DigitRunOfDigits(s: Bytes)
    requires forall c | c in s :: IsDigit(c)
    ensures DigitRun(s) == s
  {
    if s != [] {
      DigitRunOfDigits(s[1..]);
      assert s == [s[0]] + s[1..];
    }
  }

  predicate IsSpace(c: byte) { c == 32 || 9 <= c <= 13 }

  function SkipSpaces(s: Bytes): Bytes {
    if s != [] && IsSpace(s[0]) then SkipSpaces(s[1..]) else s
  }

  const PORT_LIMIT := 65536
  type Port = p: nat | p < PORT_LIMIT

  const PLUS: byte := 43
  const MINUS: byte := 45
  const COLON: byte := 58

  /** istringstream(s) >> port into an unsigned short that holds `before`:
      leading white space is skipped, and if nothing is left the variable keeps
      what it held; a sign is read, no digits give 0, too large a number gives
      the largest port, a negative number is negated modulo 2^16. */
  function ReadPort(s: Bytes, before: Port): Port {
    var t := SkipSpaces(s);
    var negative := t != [] && t[0] == MINUS;
    var signed := t != [] && (t[0] == MINUS || t[0] == PLUS);
    var v := DecimalValue(DigitRun(if signed then t[1..] else t));
    if t == [] then before
    else if v >= PORT_LIMIT then PORT_LIMIT - 1
    else if negative then (PORT_LIMIT - v) % PORT_LIMIT
    else v
  }

  /** Reading what itos wrote gives the port back, whatever was there before. */
  lemma ReadPortInvertsItos(p: Port, before: Port)
    ensures ReadPort(Itos(p), before) == p
  {
    var s := Itos(p);
    assert s[0] in s;
    assert SkipSpaces(s) == s;
    DigitRunOfDigits(s);
    DecimalInverse(p);
  }

  lemma {:induction false} SkipsBlanks(blanks: Bytes, t: Bytes)
    requires forall c | c in blanks :: c in {9, 10, 11, 12, 13, 32}
    requires t == [] || t[0] !in {9, 10, 11, 12, 13, 32}
    ensures SkipSpaces(blanks + t) == t
  {
    if blanks != [] {
      assert blanks[0] in blanks && forall c | c in blanks[1..] :: c in blanks;
      assert (blanks + t)[1..] == blanks[1..] + t;
      SkipsBlanks(blanks[1..], t);
    } else {
      assert [] + t == t;
    }
  }

  lemma {:induction false} RunEnds(d: Bytes, rest: Bytes)
    requires forall c | c in d :: 48 <= c <= 57
    requires rest == [] || !(48 <= rest[0] <= 57)
    ensures DigitRun(d + rest) == d
  {
    if d != [] {
      assert d[0] in d && forall c | c in d[1..] :: c in d;
      assert (d + rest)[1..] == d[1..] + rest;
      RunEnds(d[1..], rest);
      assert d == [d[0]] + d[1..];
    } else {
      assert [] + rest == rest;
    }
  }

  lemma {:induction false} LeadingZeros(zeros: Bytes, s: Bytes)
    requires forall c | c in zeros :: c == 48
    requires forall c | c in s :: IsDigit(c)
    ensures forall c | c in zeros + s :: IsDigit(c)
    ensures DecimalValue(zeros + s) == DecimalValue(s)
  {
    if zeros != [] {
      assert zeros[0] in zeros && forall c | c in zeros[1..] :: c in zeros;
      LeadingZeros(zeros[1..], s);
      assert (zeros + s)[1..] == zeros[1..] + s;
      DecimalByPlaces(zeros + s);
    } else {
      assert [] + s == s;
    }
  }

  /** What a number is read as: white space before it, a plus sign, zeros in front
      and anything behind do not matter; what does not fit gives the largest
      port; and a minus sign negates modulo 2^16. */
  lemma NumberRead(blanks: Bytes, sign: Bytes, zeros: Bytes, v: nat, rest: Bytes, before: Port)
    requires forall c | c in blanks :: c in {9, 10, 11, 12, 13, 32}
    requires sign == [] || sign == [43] || sign == [45]
    requires forall c | c in zeros :: c == 48
    requires rest == [] || !(48 <= rest[0] <= 57)
    ensures ReadPort(blanks + sign + zeros + Itos(v) + rest, before)
            == if v > 65535 then 65535 else if sign == [45] then (65536 - v) % 65536 else v
  {
    hide Itos, SkipSpaces, DigitRun, DecimalValue;
    var d := zeros + Itos(v);
    LeadingZeros(zeros, Itos(v));
    DecimalInverse(v);
    RunEnds(d, rest);
    var t := sign + (d + rest);
    assert d[0] in d;
    assert blanks + sign + zeros + Itos(v) + rest == blanks + t;
    SkipsBlanks(blanks, t);
    assert sign != [] ==> t[1..] == d + rest;
    assert sign == [] ==> t == d + rest;
  }

  /** And where there is no number: nothing but white space leaves the variable
      alone, any other text makes it zero. */
  lemma NoNumberRead(blanks: Bytes, sign: Bytes, rest: Bytes, before: Port)
    requires forall c | c in blanks :: c in {9, 10, 11, 12, 13, 32}
    requires sign == [] || sign == [43] || sign == [45]
    requires rest == [] || !(48 <= rest[0] <= 57)
    requires sign == [] && rest != [] ==> rest[0] !in {9, 10, 11, 12, 13, 32, 43, 45}
    ensures ReadPort(blanks + sign + rest, before) == if sign + rest == [] then before else 0
  {
    assert blanks + sign + rest == blanks + (sign + rest);
    SkipsBlanks(blanks, sign + rest);
    RunEnds([], rest);
    assert [] + rest == rest;
    assert sign != [] ==> (sign + rest)[1..] == rest;
    assert sign == [] ==> sign + rest == rest;
  }
}
