/** Bytes, optional values and big-endian numbers shared by every component. */
module Basics {

  type Byte = b: int | 0 <= b < 256

  datatype Option<+T> = None | Some(value: T)

  /** 256 to the power k. */
  function Pow256(k: nat): (p: nat)
    ensures p >= 1
  {
    if k == 0 then 1 else 256 * Pow256(k - 1)
  }

  /** The low k bytes of n, most significant first. */
  function BigEndian(n: nat, k: nat): (s: seq<Byte>)
    ensures |s| == k
  {
    if k == 0 then [] else BigEndian(n / 256, k - 1) + [n % 256]
  }

  /** The number a big-endian byte string denotes. */
  function FromBigEndian(s: seq<Byte>): nat
  {
    if s == [] then 0 else 256 * FromBigEndian(s[..|s| - 1]) + s[|s| - 1]
  }

  lemma {:induction false} BigEndianRoundTrip(n: nat, k: nat)
    requires n < Pow256(k)
    ensures FromBigEndian(BigEndian(n, k)) == n
  {
    if k > 0 {
      BigEndianRoundTrip(n / 256, k - 1);
      assert BigEndian(n, k)[..k - 1] == BigEndian(n / 256, k - 1);
    }
  }

  lemma {:induction false} FromBigEndianRoundTrip(s: seq<Byte>)
    ensures FromBigEndian(s) < Pow256(|s|)
    ensures BigEndian(FromBigEndian(s), |s|) == s
  {
    if s != [] {
      var front := s[..|s| - 1];
      FromBigEndianRoundTrip(front);
      assert s == front + [s[|s| - 1]];
    }
  }
}

/** Session identifiers (ULIDs): a 48-bit time stamp followed by 80 random bits. */
module Identifiers {
  import opened Basics

  const TIME_BOUND := 0x1_0000_0000_0000
  const ENTROPY_BOUND := 0x1_0000_0000_0000_0000_0000
  const WORD_BOUND := 0x1_0000_0000_0000_0000

  type Time = t: nat | t < TIME_BOUND
  type Entropy = e: nat | e < ENTROPY_BOUND

  datatype Id = Id(time: Time, entropy: Entropy)

  /** The value -1 that the store lookup uses for "no other key". */
  const SENTINEL := Id(TIME_BOUND - 1, ENTROPY_BOUND - 1)

  function Marshal(id: Id): (s: seq<Byte>)
    ensures |s| == 16
  {
    BigEndian(id.time, 6) + BigEndian(id.entropy, 10)
  }

  lemma Bounds()
    ensures Pow256(6) == TIME_BOUND
    ensures Pow256(8) == WORD_BOUND
    ensures Pow256(10) == ENTROPY_BOUND
  {
    assert Pow256(2) == 0x1_0000;
    assert Pow256(4) == 0x1_0000_0000;
    assert Pow256(6) == TIME_BOUND;
    assert Pow256(8) == WORD_BOUND;
    assert Pow256(10) == ENTROPY_BOUND;
  }

  function Unmarshal(s: seq<Byte>): (id: Id)
    requires |s| == 16
  {
    Bounds();
    FromBigEndianRoundTrip(s[..6]);
    FromBigEndianRoundTrip(s[6..]);
    Id(FromBigEndian(s[..6]), FromBigEndian(s[6..]))
  }

  /** Marshalling an id and reading it back are inverse to each other, in both orders. */
  lemma MarshalRoundTrip(id: Id)
    ensures Unmarshal(Marshal(id)) == id
  {
    Bounds();
    BigEndianRoundTrip(id.time, 6);
    BigEndianRoundTrip(id.entropy, 10);
    assert Marshal(id)[..6] == BigEndian(id.time, 6);
    assert Marshal(id)[6..] == BigEndian(id.entropy, 10);
  }

  lemma UnmarshalRoundTrip(s: seq<Byte>)
    requires |s| == 16
    ensures Marshal(Unmarshal(s)) == s
  {
    FromBigEndianRoundTrip(s[..6]);
    FromBigEndianRoundTrip(s[6..]);
    assert s == s[..6] + s[6..];
  }

  /** Comparing the first six marshalled bytes is comparing the time stamps. */
  lemma SameTimestamp(left: Id, right: Id)
    ensures Marshal(left)[..6] == Marshal(right)[..6] <==> left.time == right.time
  {
    MarshalRoundTrip(left);
    MarshalRoundTrip(right);
    assert Marshal(left)[..6] == BigEndian(left.time, 6);
    assert Marshal(right)[..6] == BigEndian(right.time, 6);
  }

  /** A 64-bit word shifted left by eight bits, with a byte put in the low end. */
  function ShiftIn(word: nat, b: Byte): (w: nat)
    requires word < WORD_BOUND
    ensures w < WORD_BOUND
  {
    256 * (word % (WORD_BOUND / 256)) + b
  }

  lemma RemainderIs(y: nat, m: nat, k: int, r: nat)
    requires r < m && y == m * k + r
    ensures y % m == r
  {
    var d := y / m;
    assert y == m * d + y % m;
    RemainderIsUnique(m, d, k, y % m, r);
  }

  lemma RemainderIsUnique(m: nat, a: int, b: int, e: nat, r: nat)
    requires e < m && r < m && m * a + e == m * b + r
    ensures e == r
  {
    if a > b {
      Spread(m, b, a - b);
    } else if b > a {
      Spread(m, a, b - a);
    }
  }

  lemma {:induction false} Spread(m: nat, b: int, k: nat)
    requires k >= 1
    ensures m * (b + k) >= m * b + m
  {
    assert m * (b + k) == m * (b + (k - 1)) + m;
    if k > 1 {
      Spread(m, b, k - 1);
    }
  }

  /** Reducing first modulo a multiple of p changes nothing modulo p. */
  lemma NestedRemainder(word: nat, p: nat, q: nat)
    requires p > 0 && q > 0 && q * p > 0
    ensures (word % (q * p)) % p == word % p
  {
    var cut := q * p;
    var lost := word / cut;
    var kept := word % cut;
    assert word == cut * lost + kept;
    assert cut * lost == p * (q * lost);
    assert kept == p * (kept / p) + kept % p;
    assert word == p * (q * lost + kept / p) + kept % p by {
      assert p * (q * lost + kept / p) == p * (q * lost) + p * (kept / p);
    }
    RemainderIs(word, p, q * lost + kept / p, kept % p);
  }

  lemma ShiftedRemainder(z: nat, p: nat, b: Byte)
    requires p > 0
    ensures (256 * z + b) % (256 * p) == 256 * (z % p) + b
  {
    assert z == p * (z / p) + z % p;
    assert 256 * z == (256 * p) * (z / p) + 256 * (z % p) by {
      assert 256 * (p * (z / p)) == (256 * p) * (z / p);
    }
    RemainderIs(256 * z + b, 256 * p, z / p, 256 * (z % p) + b);
  }

  /** One round of the accumulation keeps the bytes read so far in the low end. */
  lemma AccumulatedByte(word: nat, k: nat, b: Byte)
    requires k < 7 && word < WORD_BOUND
    ensures ShiftIn(word, b) % Pow256(k + 1) == 256 * (word % Pow256(k)) + b
  {
    var p, q := Pow256(k), Pow256(7 - k);
    assert q * p == WORD_BOUND / 256 by {
      PowDivides(k, 7);
      Bounds();
      assert Pow256(8) == 256 * Pow256(7);
    }
    NestedRemainder(word, p, q);
    ShiftedRemainder(word % (q * p), p, b);
  }

  lemma {:induction false} PowDivides(i: nat, j: nat)
    requires i <= j
    ensures Pow256(j) == Pow256(j - i) * Pow256(i)
  {
    if i > 0 {
      PowDivides(i - 1, j);
      assert Pow256(j - (i - 1)) == 256 * Pow256(j - i);
      assert 256 * Pow256(j - i) * Pow256(i - 1) == Pow256(j - i) * (256 * Pow256(i - 1));
    }
  }

  /** Handler::create_translation, up to the table insertion: a new id from the first six bytes of
      the original. The accumulator starts uninitialised (`garbage`), yet the new id always falls in
      the original's time stamp. */
  method TranslationOf(original: Id, garbage: nat, entropy: Entropy) returns (id: Id)
    requires garbage < WORD_BOUND
    ensures id == Id(original.time, entropy)
    ensures Marshal(id)[..6] == Marshal(original)[..6]
  {
    var slice := Marshal(original)[..6];
    var timestamp := garbage;
    for i := 0 to 6
      invariant 0 <= timestamp < WORD_BOUND
      invariant timestamp % Pow256(i) == FromBigEndian(slice[..i])
    {
      AccumulatedByte(timestamp, i, slice[i]);
      assert slice[..i + 1][..i] == slice[..i];
      timestamp := ShiftIn(timestamp, slice[i]);
    }
    Bounds();
    assert slice[..6] == slice == BigEndian(original.time, 6);
    BigEndianRoundTrip(original.time, 6);
    id := Id(timestamp % TIME_BOUND, entropy);
    SameTimestamp(id, original);
  }
}
