/** From a message of the protocol to bytes and to the message the next node takes from them. Listeners
    are one-byte addresses under length code 0. */
module Transmission {
  import opened Basics
  import opened Json
  import opened Cbor
  import opened CborBytes
  import opened Requirements
  import I = Identifiers
  import opened Protocol
  import opened Network
  import opened Fidelity
  import Cap = Capabilities
  import W = Wire

  // ---- The size of a payload ----

  lemma HeadSize(major: nat, n: nat)
    requires major < 8
    ensures |Head(major, n)| <= 9
  {
  }

  lemma {:induction false} OnePair(pair: Pair)
    ensures EncodePairs([pair]) == EncodePair(pair)
  {
    hide EncodePair;
    assert [pair][1..] == [];
    assert EncodePairs([pair]) == EncodePair(pair) + EncodePairs([]);
  }

  lemma {:induction false} ObjectSize(key: Bytes, value: Json)
    ensures |Encode(ItemOf(Object([Member(key, value)])))| <= 18 + |key| + |Encode(ItemOf(value))|
  {
    var members := [Member(key, value)];
    assert members[..0] == [];
    assert PairsOf(members) == [Pair(Str(key), ItemOf(value))];
    OnePair(Pair(Str(key), ItemOf(value)));
    HeadSize(5, 1);
    HeadSize(3, |key|);
  }

  lemma PairSize(a: Member, b: Member)
    ensures |Encode(ItemOf(Object([a, b])))|
         <= 27 + |a.key| + |b.key| + |Encode(ItemOf(a.value))| + |Encode(ItemOf(b.value))|
  {
    assert [a, b][..1] == [a] && [a][..0] == [];
    var first, second := Pair(Str(a.key), ItemOf(a.value)), Pair(Str(b.key), ItemOf(b.value));
    assert PairsOf([a]) == [first];
    assert PairsOf([a, b]) == [first, second];
    TwoPairs(first, second);
    assert Encode(Map([first, second])) == Head(5, 2) + EncodePairs([first, second]);
    HeadSize(5, 2);
    MemberSize(a);
    MemberSize(b);
  }

  lemma MemberSize(m: Member)
    ensures |EncodePair(Pair(Str(m.key), ItemOf(m.value)))| <= 9 + |m.key| + |Encode(ItemOf(m.value))|
  {
    HeadSize(3, |m.key|);
  }

  lemma {:induction false} TwoPairs(first: Pair, second: Pair)
    ensures EncodePairs([first, second]) == EncodePair(first) + EncodePair(second)
  {
    hide EncodePair;
    OnePair(second);
    assert [first, second][1..] == [second];
    assert EncodePairs([first, second]) == EncodePair(first) + EncodePairs([second]);
  }

  lemma NameSizes()
    ensures |REQUIREMENTS| == 34 && |ITEMS| == 5 && |ORDER| == 5 && |REQUIREMENT| == 11 && |CPU_CORES| == 9
  {
  }

  const ITEM_SIZE: nat := 88

  lemma ItemSize(place: Byte, item: Cap.Item)
    ensures |Encode(ItemOf(ItemJson(place, item)))| <= ITEM_SIZE
  {
    NameSizes();
    hide ORDER;
    hide REQUIREMENT;
    hide CPU_CORES;
    var order := Member(ORDER, Number(place));
    NumberSize(place);
    if item.kind == Cap.CompCpu && item.value.Some? {
      var n := item.value.value;
      NumberSize(n);
      ObjectSize(CPU_CORES, Number(n));
      var requirement := Member(REQUIREMENT, Object([Member(CPU_CORES, Number(n))]));
      PairSize(order, requirement);
      assert ItemJson(place, item).members == [order, requirement];
    } else {
      ObjectSize(ORDER, Number(place));
      assert ItemJson(place, item).members == [order];
    }
  }

  lemma NumberSize(n: nat)
    ensures |Encode(ItemOf(Number(n)))| == 9
  {
  }

  lemma {:induction false} ItemsSize(items: seq<Item>)
    requires forall i | 0 <= i < |items| :: |Encode(items[i])| <= ITEM_SIZE
    ensures |EncodeAll(items)| <= ITEM_SIZE * |items|
  {
    hide Encode;
    if items != [] {
      ItemsSize(items[1..]);
    }
  }

  lemma {:induction false} EveryItemSize(caps: Cap.Caps, k: nat)
    ensures forall i | 0 <= i < |ItemsJson(caps, k)| :: |Encode(ItemOf(ItemsJson(caps, k)[i]))| <= ITEM_SIZE
    decreases 256 - k
  {
    hide Encode;
    hide ItemJson;
    if k < 256 {
      EveryItemSize(caps, k + 1);
      if k in caps.items {
        ItemSize(k, caps.items[k]);
      }
    }
  }

  lemma ArraySize(items: seq<Json>)
    requires |items| <= 256 && forall i | 0 <= i < |items| :: |Encode(ItemOf(items[i]))| <= ITEM_SIZE
    ensures |Encode(ItemOf(Array(items)))| <= 9 + 256 * ITEM_SIZE
  {
    var encoded := ItemsOf(items);
    forall i | 0 <= i < |encoded| ensures |Encode(encoded[i])| <= ITEM_SIZE {
      ItemsOfAt(items, i);
    }
    ItemsSize(encoded);
    HeadSize(4, |encoded|);
  }

  /** The payload of any requirements, of which there are at most 256, fits its 16-bit length. */
  lemma PayloadFits(caps: Cap.Caps)
    ensures |Marshal(caps)| < 0x1_0000
  {
    NameSizes();
    hide REQUIREMENTS;
    hide ITEMS;
    hide Encode;
    hide ItemOf;
    var items := ItemsJson(caps, FIRST);
    EveryItemSize(caps, FIRST);
    ArraySize(items);
    ObjectSize(ITEMS, Array(items));
    ObjectSize(REQUIREMENTS, Object([Member(ITEMS, Array(items))]));
    StreamRebuilds(Document(items));
  }

  // ---- Messages as bytes ----

  const VERSION: Byte := 1

  function Array16(a: Byte, rest: seq<Byte>): W.Listener
    requires |rest| == W.LISTENER_LENGTH - 1
  {
    [a] + rest
  }

  /** What goes into a request: nothing, or the requirements of a reservation. */
  datatype Body = Bare | Full(caps: Cap.Caps)

  function BodyBytes(body: Body): Bytes
  {
    match body
    case Bare => []
    case Full(caps) => Marshal(caps)
  }

  function BodyPayload(body: Body): Payload
  {
    match body
    case Bare => Empty
    case Full(caps) => Forwarded(caps)
  }

  /** The constructor of EAR and MAR from requirements, or from no payload at all. */
  function RequestFor(priority: Byte, listener: Byte, rest: seq<Byte>, body: Body): W.Request
    requires |rest| == W.LISTENER_LENGTH - 1
  {
    W.Request(priority, 0, Array16(listener, rest), |BodyBytes(body)| % 0x1_0000, BodyBytes(body))
  }

  /** Two to the power e. */
  function Power(e: nat): (p: real)
    ensures p > 0.0
  {
    if e == 0 then 1.0 else 2.0 * Power(e - 1)
  }

  /** The number that the four bytes of a little-endian single-precision float stand for; None for
      infinities and NaN. */
  function FloatValue(s: seq<Byte>): Option<real>
    requires |s| == 4
  {
    var exponent: nat := s[3] as nat % 128 * 2 + s[2] as nat / 128;
    var fraction: nat := s[2] as nat % 128 * 0x1_0000 + s[1] as nat * 0x100 + s[0] as nat;
    var magnitude :=
      if exponent == 0 then fraction as real / Power(149)
      else (0x80_0000 + fraction) as real * Power(exponent) / Power(150);
    if exponent == 255 then None else Some(if s[3] < 128 then magnitude else -magnitude)
  }

  /** `bits` are the four bytes of a bid. */
  function PacketFor(m: Message, rest: seq<Byte>, body: Body, bits: seq<Byte>): W.Packet
    requires |rest| == W.LISTENER_LENGTH - 1
  {
    match m
    case BID(id, _) => W.Bid(VERSION, id, bits)
    case EAR(id, p, l, _) => W.Ear(VERSION, id, RequestFor(p, l, rest, body))
    case MAR(id, p, l, _) => W.Mar(VERSION, id, RequestFor(p, l, rest, body))
    case ACC(id) => W.Acc(VERSION, id)
    case REF(id) => W.Ref(VERSION, id)
    case REP(id, l) => W.Rep(VERSION, id, 0, Array16(l, rest), 0)
  }

  /** What the receiver's handler makes of a parsed packet with listeners of one byte. */
  function Heard(p: W.Packet, schema: Schema): Option<Message>
  {
    match p
    case Ear(_, id, r) => Some(EAR(id, r.priority, r.listener[0], Meaning(r.payload, schema)))
    case Mar(_, id, r) => Some(MAR(id, r.priority, r.listener[0], Meaning(r.payload, schema)))
    case Bid(_, id, value) =>
      if |value| == 4 && FloatValue(value).Some? then Some(BID(id, FloatValue(value).value)) else None
    case Acc(_, id) => Some(ACC(id))
    case Ref(_, id) => Some(REF(id))
    case Rep(_, id, _, listener, _) => Some(REP(id, listener[0]))
  }

  ghost predicate Fit(body: Body, schema: Schema)
  {
    body.Full? ==> WellFormed(body.caps) && schema(Document(ItemsJson(body.caps, FIRST)))
  }

  lemma BodyMeans(body: Body, schema: Schema)
    requires Fit(body, schema)
    ensures Meaning(BodyBytes(body), schema) == BodyPayload(body) && |BodyBytes(body)| < 0x1_0000
  {
    hide Forwarded;
    hide Unmarshal;
    if body.Full? {
      ForwardedMeans(body.caps, schema);
      PayloadFits(body.caps);
    }
  }

  /** A message is heard as it was sent: written with the requirements of the reservation it speaks
      for, sent as bytes, parsed with anything behind it into an array of any content, it is the
      message the protocol model hands on, provided its priority has three bits and its bid is the
      value of a finite float. */
  lemma HeardAsSent(
    m: Message, rest: seq<Byte>, body: Body, bits: seq<Byte>, tail: seq<Byte>, found: W.Listener, schema: Schema)
    requires |rest| == W.LISTENER_LENGTH - 1 && Fit(body, schema)
    requires m.EAR? || m.MAR? ==> m.priority < 8 && m.payload == BodyPayload(body)
    requires m.BID? ==> |bits| == 4 && FloatValue(bits) == Some(m.value)
    ensures var parsed := W.Decode(W.Encode(PacketFor(m, rest, body, bits)) + tail, found);
            parsed.Parsed? && Heard(parsed.packet, schema) == Some(m)
  {
    hide W.Decode;
    hide W.Encode;
    hide BodyBytes;
    hide BodyPayload;
    hide Meaning;
    hide FloatValue;
    var p := PacketFor(m, rest, body, bits);
    BodyMeans(body, schema);
    W.WireRoundTrip(p, tail, found);
    var packet := W.Decode(W.Encode(p) + tail, found).packet;
    if m.EAR? || m.MAR? {
      SameAddress(p.request.listener, packet.request.listener);
      assert packet.request.payload == BodyBytes(body);
    } else if m.REP? {
      SameAddress(p.listener, packet.listener);
    }
  }

  /** So in every history, down to the bytes: each EAR or MAR of a session that any node sends is heard
      at the next one, whatever follows it on the wire, with the priority and the listener of the
      origin's request and either its exact requirements or none. */
  lemma {:induction false} HeardAsAsked(
    wired: Wiring, history: seq<Record>, j: nat, k: nat, s: I.Time, ask: Ask,
    rest: seq<Byte>, tail: seq<Byte>, found: W.Listener, schema: Schema) returns (body: Body)
    requires Legal(wired, history) && Asked(history, s, ask) && Consecutive(ask.caps)
    requires ask.priority < 8 && Fit(Full(ask.caps), schema) && |rest| == W.LISTENER_LENGTH - 1
    requires j < |history| && k < |history[j].outs| && history[j].outs[k].Send? && history[j].outs[k].msg.id.time == s
    requires history[j].outs[k].msg.EAR? || history[j].outs[k].msg.MAR?
    ensures body == Bare || body == Full(ask.caps)
    ensures var m := history[j].outs[k].msg;
            var parsed := W.Decode(W.Encode(PacketFor(m, rest, body, [])) + tail, found);
            && parsed.Parsed? && Heard(parsed.packet, schema) == Some(m)
            && m.priority == ask.priority && m.listener == ask.listener && m.payload == BodyPayload(body)
            && BodyPayload(body) == if body.Bare? then Empty else Carries(ask.caps)
  {
    hide Legal;
    hide Asked;
    hide Fit;
    hide Consecutive;
    hide W.Decode;
    hide W.Encode;
    hide Heard;
    hide PacketFor;
    RecordIsHonest(wired, history, j, s, ask);
    var m := history[j].outs[k].msg;
    body := if m.payload == Empty then Bare else Full(ask.caps);
    FitBare(schema);
    HeardAsSent(m, rest, body, [], tail, found, schema);
  }

  lemma FitBare(schema: Schema)
    ensures Fit(Bare, schema)
  {
  }

  lemma SameAddress(a: W.Listener, b: W.Listener)
    ensures W.Address(0, a) == W.Address(0, b) ==> a[0] == b[0]
  {
  }
}
