/** CBOR items as bytes: heads as in section 3 of RFC 8949, definite lengths only. Integers and doubles
    take eight bytes, lengths the shortest form. */
module CborBytes {
  import opened Basics
  import opened Identifiers
  import opened Json
  import opened Cbor

  type Bytes = seq<Byte>

  // ---- Heads ----

  /** The initial byte: major type and additional information. */
  function Initial(major: nat, info: nat): Byte
    requires major < 8 && info < 32
  {
    32 * major + info
  }

  /** The shortest head for a length. */
  function Head(major: nat, n: nat): Bytes
    requires major < 8
  {
    if n < 24 then [Initial(major, n)]
    else if n < 0x100 then [Initial(major, 24)] + BigEndian(n, 1)
    else if n < 0x1_0000 then [Initial(major, 25)] + BigEndian(n, 2)
    else if n < 0x1_0000_0000 then [Initial(major, 26)] + BigEndian(n, 4)
    else [Initial(major, 27)] + BigEndian(n, 8)
  }

  datatype Start = Start(major: nat, info: nat, n: nat, rest: Bytes)

  function Width(info: nat): nat
  {
    if info == 24 then 1 else if info == 25 then 2 else if info == 26 then 4 else if info == 27 then 8 else 0
  }

  /** The head at the start of the bytes; None if it is cut short, reserved or indefinite. */
  function HeadAt(bytes: Bytes): (s: Option<Start>)
    ensures s.Some? ==> |s.value.rest| < |bytes|
  {
    if bytes == [] then None
    else
      var major, info, w := bytes[0] / 32, bytes[0] % 32, Width(bytes[0] % 32);
      if info < 24 then Some(Start(major, info, info, bytes[1..]))
      else if w == 0 || |bytes| < 1 + w then None
      else Some(Start(major, info, FromBigEndian(bytes[1..1 + w]), bytes[1 + w..]))
  }

  /** A head with its number in w bytes is read back. */
  lemma {:induction false} WideHead(major: nat, info: nat, n: nat, tail: Bytes)
    requires major < 8 && 24 <= info < 28 && n < Pow256(Width(info))
    ensures HeadAt([Initial(major, info)] + BigEndian(n, Width(info)) + tail) == Some(Start(major, info, n, tail))
  {
    hide BigEndian;
    hide FromBigEndian;
    hide Pow256;
    var w := Width(info);
    var bytes := [Initial(major, info)] + BigEndian(n, w) + tail;
    BigEndianRoundTrip(n, w);
    assert bytes[1..1 + w] == BigEndian(n, w);
    assert bytes[1 + w..] == tail;
  }

  lemma Widths()
    ensures Pow256(1) == 0x100 && Pow256(2) == 0x1_0000 && Pow256(4) == 0x1_0000_0000 && Pow256(8) == WORD_BOUND
  {
    assert Pow256(1) == 0x100;
    assert Pow256(2) == 0x1_0000;
    Bounds();
    assert Pow256(4) == 0x1_0000_0000;
  }

  lemma HeadTrip(major: nat, n: nat, tail: Bytes)
    requires major < 8 && n < WORD_BOUND
    ensures var s := HeadAt(Head(major, n) + tail);
            s.Some? && s.value.major == major && s.value.n == n && s.value.rest == tail
  {
    Widths();
    if n < 24 {
      assert (Head(major, n) + tail)[1..] == tail;
    } else {
      var info := if n < 0x100 then 24 else if n < 0x1_0000 then 25 else if n < 0x1_0000_0000 then 26 else 27;
      WideHead(major, info, n, tail);
    }
  }

  // ---- Items ----

  function Encode(item: Item): Bytes
    decreases item
  {
    match item
    case UInt(n) => [Initial(0, 27)] + BigEndian(n, 8)
    case NegInt(n) => [Initial(1, 27)] + BigEndian(n, 8)
    case Str(s) => Head(3, |s|) + s
    case List(items) => Head(4, |items|) + EncodeAll(items)
    case Map(pairs) => Head(5, |pairs|) + EncodePairs(pairs)
    case Float(bits) => [Initial(7, 27)] + BigEndian(bits, 8)
    case Boolean(b) => [Initial(7, if b then 21 else 20)]
    case Nil => [Initial(7, 22)]
  }

  function EncodeAll(items: seq<Item>): Bytes
    decreases items
  {
    if items == [] then [] else Encode(items[0]) + EncodeAll(items[1..])
  }

  function EncodePairs(pairs: seq<Pair>): Bytes
    decreases pairs
  {
    if pairs == [] then [] else EncodePair(pairs[0]) + EncodePairs(pairs[1..])
  }

  function EncodePair(pair: Pair): Bytes
    decreases pair
  {
    Encode(pair.key) + Encode(pair.value)
  }

  datatype Read<T> = Read(value: T, rest: Bytes)

  /** The item at the start of the bytes. */
  function Decode(bytes: Bytes): (r: Option<Read<Item>>)
    ensures r.Some? ==> |r.value.rest| < |bytes|
    decreases |bytes|, 0
  {
    match HeadAt(bytes)
    case None => None
    case Some(Start(major, info, n, rest)) =>
      if major == 0 then Some(Read(UInt(n), rest))
      else if major == 1 then Some(Read(NegInt(n), rest))
      else if major == 3 then if n <= |rest| then Some(Read(Str(rest[..n]), rest[n..])) else None
      else if major == 4 then
        match DecodeAll(rest, n)
        case None => None
        case Some(r) => Some(Read(List(r.value), r.rest))
      else if major == 5 then
        match DecodePairs(rest, n)
        case None => None
        case Some(r) => Some(Read(Map(r.value), r.rest))
      else if major == 7 && info == 20 then Some(Read(Boolean(false), rest))
      else if major == 7 && info == 21 then Some(Read(Boolean(true), rest))
      else if major == 7 && info == 22 then Some(Read(Nil, rest))
      else if major == 7 && info == 27 then Some(Read(Float(n), rest))
      else None
  }

  function DecodeAll(bytes: Bytes, n: nat): (r: Option<Read<seq<Item>>>)
    ensures r.Some? ==> |r.value.rest| <= |bytes|
    decreases |bytes|, 1 + n
  {
    if n == 0 then Some(Read([], bytes))
    else
      match Decode(bytes)
      case None => None
      case Some(first) =>
        match DecodeAll(first.rest, n - 1)
        case None => None
        case Some(others) => Some(Read([first.value] + others.value, others.rest))
  }

  function DecodePairs(bytes: Bytes, n: nat): (r: Option<Read<seq<Pair>>>)
    ensures r.Some? ==> |r.value.rest| <= |bytes|
    decreases |bytes|, 1 + n
  {
    if n == 0 then Some(Read([], bytes))
    else
      match Decode(bytes)
      case None => None
      case Some(key) =>
        match Decode(key.rest)
        case None => None
        case Some(value) =>
          match DecodePairs(value.rest, n - 1)
          case None => None
          case Some(others) => Some(Read([Pair(key.value, value.value)] + others.value, others.rest))
  }

  /** Every number and length fits 64 bits. */
  predicate Sized(item: Item)
    decreases item
  {
    match item
    case UInt(n) => n < WORD_BOUND
    case NegInt(n) => n < WORD_BOUND
    case Str(s) => |s| < WORD_BOUND
    case List(items) => |items| < WORD_BOUND && forall i | 0 <= i < |items| :: Sized(items[i])
    case Map(pairs) => |pairs| < WORD_BOUND && forall i | 0 <= i < |pairs| :: SizedPair(pairs[i])
    case Float(bits) => bits < WORD_BOUND
    case Boolean(_) => true
    case Nil => true
  }

  predicate SizedPair(pair: Pair)
    decreases pair
  {
    Sized(pair.key) && Sized(pair.value)
  }

  lemma {:induction false} ScalarTrip(item: Item, tail: Bytes)
    requires Sized(item) && !item.List? && !item.Map? && !item.Str?
    ensures Decode(Encode(item) + tail) == Some(Read(item, tail))
  {
    Widths();
    match item
    case UInt(n) => WideHead(0, 27, n, tail);
    case NegInt(n) => WideHead(1, 27, n, tail);
    case Float(bits) => WideHead(7, 27, bits, tail);
    case Boolean(b) => assert (Encode(item) + tail)[1..] == tail;
    case Nil => assert (Encode(item) + tail)[1..] == tail;
  }

  lemma {:induction false} StrBytes(s: Bytes, tail: Bytes)
    requires |s| < WORD_BOUND
    ensures Decode(Encode(Str(s)) + tail) == Some(Read(Str(s), tail))
  {
    hide Head;
    hide HeadAt;
    HeadTrip(3, |s|, s + tail);
    assert Encode(Str(s)) + tail == Head(3, |s|) + (s + tail);
  }

  lemma {:induction false} ListBytes(items: seq<Item>, tail: Bytes)
    requires |items| < WORD_BOUND
    requires DecodeAll(EncodeAll(items) + tail, |items|) == Some(Read(items, tail))
    ensures Decode(Encode(List(items)) + tail) == Some(Read(List(items), tail))
  {
    hide Head;
    hide HeadAt;
    hide EncodeAll;
    hide DecodeAll;
    HeadTrip(4, |items|, EncodeAll(items) + tail);
    assert Encode(List(items)) + tail == Head(4, |items|) + (EncodeAll(items) + tail);
  }

  lemma {:induction false} MapBytes(pairs: seq<Pair>, tail: Bytes)
    requires |pairs| < WORD_BOUND
    requires DecodePairs(EncodePairs(pairs) + tail, |pairs|) == Some(Read(pairs, tail))
    ensures Decode(Encode(Map(pairs)) + tail) == Some(Read(Map(pairs), tail))
  {
    hide Head;
    hide HeadAt;
    hide EncodePairs;
    hide DecodePairs;
    HeadTrip(5, |pairs|, EncodePairs(pairs) + tail);
    assert Encode(Map(pairs)) + tail == Head(5, |pairs|) + (EncodePairs(pairs) + tail);
  }

  lemma OneMore(bytes: Bytes, n: nat, first: Item, rest: Bytes, others: seq<Item>, tail: Bytes)
    requires Decode(bytes) == Some(Read(first, rest)) && DecodeAll(rest, n) == Some(Read(others, tail))
    ensures DecodeAll(bytes, n + 1) == Some(Read([first] + others, tail))
  {
    hide Decode;
  }

  lemma OneMorePair(bytes: Bytes, n: nat, first: Pair, middle: Bytes, rest: Bytes, others: seq<Pair>, tail: Bytes)
    requires Decode(bytes) == Some(Read(first.key, middle)) && Decode(middle) == Some(Read(first.value, rest))
    requires DecodePairs(rest, n) == Some(Read(others, tail))
    ensures DecodePairs(bytes, n + 1) == Some(Read([first] + others, tail))
  {
    hide Decode;
  }

  /** Decoding what an item encodes to, whatever follows it, gives the item back. */
  lemma {:induction false} ItemTrip(item: Item, tail: Bytes)
    requires Sized(item)
    ensures Decode(Encode(item) + tail) == Some(Read(item, tail))
    decreases item
  {
    hide Decode;
    hide Encode;
    match item
    case List(items) => ItemsTrip(items, tail); ListBytes(items, tail);
    case Map(pairs) => PairsTrip(pairs, tail); MapBytes(pairs, tail);
    case Str(s) => StrBytes(s, tail);
    case _ => ScalarTrip(item, tail);
  }

  lemma {:induction false} ItemsTrip(items: seq<Item>, tail: Bytes)
    requires forall i | 0 <= i < |items| :: Sized(items[i])
    ensures DecodeAll(EncodeAll(items) + tail, |items|) == Some(Read(items, tail))
    decreases items
  {
    hide Decode;
    hide Encode;
    if items == [] {
      assert EncodeAll(items) + tail == tail;
    } else {
      var rest := EncodeAll(items[1..]) + tail;
      ItemsTrip(items[1..], tail);
      ItemTrip(items[0], rest);
      assert EncodeAll(items) + tail == Encode(items[0]) + rest;
      OneMore(Encode(items[0]) + rest, |items| - 1, items[0], rest, items[1..], tail);
      assert [items[0]] + items[1..] == items;
    }
  }

  lemma {:induction false} FirstPair(pairs: seq<Pair>, tail: Bytes)
    requires pairs != []
    ensures EncodePairs(pairs) + tail
         == Encode(pairs[0].key) + (Encode(pairs[0].value) + (EncodePairs(pairs[1..]) + tail))
  {
    hide Encode;
  }

  lemma NoPairs(tail: Bytes)
    ensures EncodePairs([]) + tail == tail
  {
  }

  lemma {:induction false} PairsTrip(pairs: seq<Pair>, tail: Bytes)
    requires forall i | 0 <= i < |pairs| :: SizedPair(pairs[i])
    ensures DecodePairs(EncodePairs(pairs) + tail, |pairs|) == Some(Read(pairs, tail))
    decreases pairs
  {
    hide Decode;
    hide Encode;
    hide EncodePairs;
    hide Sized;
    if pairs == [] {
      NoPairs(tail);
    } else {
      var rest := EncodePairs(pairs[1..]) + tail;
      PairsTrip(pairs[1..], tail);
      PairTrip(pairs[0], rest);
      var middle := Encode(pairs[0].value) + rest;
      FirstPair(pairs, tail);
      OneMorePair(Encode(pairs[0].key) + middle, |pairs| - 1, pairs[0], middle, rest, pairs[1..], tail);
      assert [pairs[0]] + pairs[1..] == pairs;
    }
  }

  lemma {:induction false} PairTrip(pair: Pair, rest: Bytes)
    requires SizedPair(pair)
    ensures Decode(Encode(pair.key) + (Encode(pair.value) + rest)) == Some(Read(pair.key, Encode(pair.value) + rest))
    ensures Decode(Encode(pair.value) + rest) == Some(Read(pair.value, rest))
    decreases pair
  {
    ItemTrip(pair.key, Encode(pair.value) + rest);
    ItemTrip(pair.value, rest);
  }

  // ---- JSON to bytes and back ----

  /** serialize_json_as_vector: the events, the builder's root item, its bytes. */
  function Serialize(j: Json): Bytes
  {
    match Feed(EMPTY_CONTEXT, Stream(j)).root
    case None => []
    case Some(item) => Encode(item)
  }

  /** deserialize_json; bytes that hold no item load as null. */
  function Deserialize(bytes: Bytes): Json
  {
    match Decode(bytes)
    case None => Null
    case Some(r) => JsonOf(r.value)
  }

  /** For every document whose sizes fit 64 bits: what comes back is the garbled document, so it is the
      document itself exactly when that has no string leaves, no negative numbers and no null byte in
      a key. */
  lemma {:induction false} DocumentTrip(j: Json, tail: Bytes)
    requires Sized(ItemOf(j))
    ensures Deserialize(Serialize(j) + tail) == Garbled(j)
    ensures Deserialize(Serialize(j) + tail) == j <==> Faithful(j)
  {
    StreamRebuilds(j);
    ItemTrip(ItemOf(j), tail);
    TreeTrip(j);
    GarbledExactly(j);
  }
}
