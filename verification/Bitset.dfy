/** Sets of small numbers as arrays of 64-bit words, changed in place. */
module Bitset {

  /** A 64-bit word, as the set of its one bits: |= with 1 << k adds k, &^= removes it,
      and exclusive or is symmetric difference. */
  type Word = w: set<nat> | forall k :: k in w ==> k < 64

  function Xor(u: Word, v: Word): Word {
    (u - v) + (v - u)
  }

  /** The bits of n from bit k up, cut off at 64 bits. */
  function Bits(n: nat, k: nat): Word
    decreases 64 - k
  {
    if k >= 64 then {}
    else (if n % 2 == 1 then {k} else {}) + Bits(n / 2, k + 1)
  }

  function Pow2(k: nat): (p: nat)
    ensures p > 0
  {
    if k == 0 then 1 else 2 * Pow2(k - 1)
  }

  lemma HalfFirst(n: nat, p: nat)
    requires p > 0
    ensures (n / 2) / p == n / (2 * p)
  {
    var a, b := n / 2, (n / 2) / p;
    var r := a - b * p;
    assert 0 <= r < p;
    assert n == b * (2 * p) + (2 * r + n % 2);
    QuotientIs(n, 2 * p, b, 2 * r + n % 2);
  }

  lemma QuotientIs(n: nat, d: nat, q: nat, r: nat)
    requires n == q * d + r && r < d
    ensures n / d == q
  {
    var e, s := n / d, n % d;
    assert (e - q) * d == r - s;
    SmallMultiple(e - q, d);
  }

  lemma SmallMultiple(k: int, d: int)
    requires -d < k * d < d
    ensures k == 0
  {
  }

  /** Bit i of a number is set exactly when the number divided by two to the i is odd. */
  lemma {:induction false} BitsAreBinary(n: nat, k: nat, i: nat)
    ensures i in Bits(n, k) <==> k <= i < 64 && (n / Pow2(i - k)) % 2 == 1
    decreases 64 - k
  {
    if k < 64 {
      BitsAreBinary(n / 2, k + 1, i);
      if i > k {
        HalfFirst(n, Pow2(i - k - 1));
      }
    }
  }

  /** The numbers whose bit is set: number p is bit p % 64 of word p / 64. */
  ghost function Members(b: seq<Word>): set<nat> {
    set p | 0 <= p < 64 * |b| && p % 64 in b[p / 64]
  }

  /** Arrays of one length have equal words exactly when they have equal members. */
  lemma MembersDetermine(b: seq<Word>, c: seq<Word>)
    requires |b| == |c|
    ensures b == c <==> Members(b) == Members(c)
  {
    if Members(b) == Members(c) {
      forall i | 0 <= i < |b| ensures b[i] == c[i] {
        forall k: nat | k < 64 ensures k in b[i] <==> k in c[i] {
          var p := 64 * i + k;
          assert p / 64 == i && p % 64 == k;
          assert p in Members(b) <==> k in b[i];
          assert p in Members(c) <==> k in c[i];
        }
      }
    }
  }

  lemma MembersUpdate(b: seq<Word>, p: nat, w: Word)
    requires p < 64 * |b|
    requires forall k: nat :: k < 64 && k != p % 64 ==> (k in w <==> k in b[p / 64])
    ensures Members(b[p / 64 := w]) == if p % 64 in w then Members(b) + {p} else Members(b) - {p}
  {
    var c := b[p / 64 := w];
    forall q | 0 <= q < 64 * |b| && q != p ensures q in Members(c) <==> q in Members(b) {
      if q / 64 == p / 64 {
        assert q % 64 != p % 64;
      }
    }
  }

  method NewBitset(bits: nat) returns (b: array<Word>)
    ensures fresh(b)
    ensures b.Length == (bits + 63) / 64
    ensures Members(b[..]) == {}
  {
    var extra := 0;
    if bits % 64 != 0 {
      extra := 1;
    }
    var chunks := bits / 64 + extra;
    b := new Word[chunks](_ => {});
  }

  method Clone(b: array<Word>) returns (c: array<Word>)
    ensures fresh(c)
    ensures c[..] == b[..]
  {
    c := new Word[b.Length](i requires 0 <= i < b.Length reads b => b[i]);
  }

  method Set(b: array<Word>, pos: nat)
    requires pos < 64 * b.Length
    modifies b
    ensures Members(b[..]) == old(Members(b[..])) + {pos}
  {
    var major, minor := pos / 64, pos % 64;
    ghost var before := b[..];
    b[major] := b[major] + {minor};
    assert b[..] == before[major := before[major] + {minor}];
    MembersUpdate(before, pos, before[major] + {minor});
  }

  method Clear(b: array<Word>, pos: nat)
    requires pos < 64 * b.Length
    modifies b
    ensures Members(b[..]) == old(Members(b[..])) - {pos}
  {
    var major, minor := pos / 64, pos % 64;
    ghost var before := b[..];
    b[major] := b[major] - {minor};
    assert b[..] == before[major := before[major] - {minor}];
    MembersUpdate(before, pos, before[major] - {minor});
  }

  method Get(b: array<Word>, pos: nat) returns (r: bool)
    requires pos < 64 * b.Length
    ensures r <==> pos in Members(b[..])
  {
    var major, minor := pos / 64, pos % 64;
    r := minor in b[major];
  }

  method PopCount(b: array<Word>) returns (total: nat)
    ensures total == |Members(b[..])|
  {
    total := 0;
    for i := 0 to b.Length
      invariant total == |Members(b[..i])|
    {
      MembersSnoc(b[..i], b[i]);
      assert b[..i + 1] == b[..i] + [b[i]];
      total := total + |b[i]|;
    }
    assert b[..b.Length] == b[..];
  }

  lemma MembersSnoc(b: seq<Word>, w: Word)
    ensures |Members(b + [w])| == |Members(b)| + |w|
  {
    var n := 64 * |b|;
    var top := Shift(w, n);
    ShiftCount(w, n);
    forall p ensures p in Members(b + [w]) <==> p in Members(b) + top {
      if n <= p < n + 64 {
        assert p / 64 == |b| && p % 64 == p - n;
        assert p - n in w <==> p in top;
      } else if 0 <= p < n {
        assert (b + [w])[p / 64] == b[p / 64];
      }
    }
    assert Members(b + [w]) == Members(b) + top;
    assert Members(b) !! top;
  }

  ghost function Shift(w: set<nat>, n: nat): set<nat> {
    set k | k in w :: n + k
  }

  lemma {:induction false} ShiftCount(w: set<nat>, n: nat)
    ensures |Shift(w, n)| == |w|
  {
    if w != {} {
      var x :| x in w;
      var v := w - {x};
      ShiftCount(v, n);
      forall p | p in Shift(w, n) ensures p in Shift(v, n) + {n + x} {
        var k :| k in w && p == n + k;
        assert k == x || k in v;
      }
      assert Shift(w, n) == Shift(v, n) + {n + x};
      assert n + x !in Shift(v, n);
    }
  }

  /** The running exclusive or of the words, from h on. */
  function Folded(h: Word, b: seq<Word>): Word {
    if b == [] then h else Xor(Folded(h, b[..|b| - 1]), b[|b| - 1])
  }

  /** How many of the words have bit k. */
  function Having(b: seq<Word>, k: nat): nat {
    if b == [] then 0 else Having(b[..|b| - 1], k) + if k in b[|b| - 1] then 1 else 0
  }

  /** Bit k of the hash says whether an odd number of the words and of the count have it. */
  lemma {:induction false} FoldedParity(h: Word, b: seq<Word>, k: nat)
    ensures k in Folded(h, b) <==> (Having(b, k) + if k in h then 1 else 0) % 2 == 1
  {
    if b != [] {
      FoldedParity(h, b[..|b| - 1], k);
    }
  }

  /** The hash is a function of the members alone. */
  ghost function HashOf(b: seq<Word>): Word {
    Folded(Bits(|Members(b)|, 0), b)
  }

  method Hash(b: array<Word>) returns (hash: Word)
    ensures hash == HashOf(b[..])
    ensures ParityOf(b[..], hash)
  {
    hide ParityOf, Bits, Members;
    var count := PopCount(b);
    hash := Bits(count, 0);
    for i := 0 to b.Length
      invariant hash == Folded(Bits(count, 0), b[..i])
    {
      assert b[..i + 1][..i] == b[..i];
      hash := Xor(hash, b[i]);
    }
    assert b[..b.Length] == b[..];
    HashParity(b[..]);
  }

  /** Bit k says whether an odd number of the words, and of the count of members in binary, have
      that bit. */
  ghost predicate ParityOf(b: seq<Word>, hash: Word) {
    forall k: nat :: k in hash <==> k < 64 && (Having(b, k) + (|Members(b)| / Pow2(k)) % 2) % 2 == 1
  }

  lemma HashParity(b: seq<Word>)
    ensures ParityOf(b, HashOf(b))
  {
    hide Pow2, Bits, Folded, Having, Members;
    var count := |Members(b)|;
    forall k: nat ensures k in HashOf(b) <==> k < 64 && (Having(b, k) + (count / Pow2(k)) % 2) % 2 == 1 {
      FoldedParity(Bits(count, 0), b, k);
      BitsAreBinary(count, 0, k);
      HavingNone(b, k);
    }
  }

  lemma {:induction false} HavingNone(b: seq<Word>, k: nat)
    ensures k >= 64 ==> Having(b, k) == 0
  {
    if b != [] { HavingNone(b[..|b| - 1], k); }
  }

  method Equals(b: array<Word>, c: array<Word>) returns (r: bool)
    ensures r <==> b[..] == c[..]
    ensures b.Length == c.Length ==> (r <==> Members(b[..]) == Members(c[..]))
  {
    if b.Length != c.Length {
      return false;
    }
    r := true;
    for i := 0 to b.Length
      invariant b[..i] == c[..i]
    {
      if b[i] != c[i] {
        assert b[..][i] != c[..][i];
        MembersDetermine(b[..], c[..]);
        return false;
      }
    }
  }
}
