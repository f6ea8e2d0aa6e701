/** The wire format of the six messages: a 17-byte header, then for EAR and MAR a request, for BID
    four bytes, for REP a listener. Shifts and masks of disjoint bit fields are written as products
    and remainders. */
module Wire {
  import opened Basics
  import opened Identifiers

  const HEADER_LENGTH := 17
  const LISTENER_LENGTH := 16

  /** The fixed array that holds a listener; its end is whatever was there before. */
  type Listener = s: seq<Byte> | |s| == LISTENER_LENGTH witness seq(LISTENER_LENGTH, i => 0)

  datatype Request = Request(priority: Byte, code: Byte, listener: Listener, length: nat, payload: seq<Byte>)

  /** `reserved` is the reserved field of a REP, which no constructor sets. */
  datatype Packet =
    | Ear(version: Byte, id: Id, request: Request)
    | Mar(version: Byte, id: Id, request: Request)
    | Bid(version: Byte, id: Id, value: seq<Byte>)
    | Acc(version: Byte, id: Id)
    | Ref(version: Byte, id: Id)
    | Rep(version: Byte, id: Id, code: Byte, listener: Listener, reserved: Byte)

  // ---- Header ----

  datatype Header = Header(version: Byte, kind: Byte, id: Id)

  function FirstByte(header: Header): Byte
  {
    header.version % 4 * 64 + header.kind % 16 * 4
  }

  function HeaderBytes(header: Header): (bytes: seq<Byte>)
    ensures |bytes| == HEADER_LENGTH
  {
    [FirstByte(header)] + Marshal(header.id)
  }

  method MarshalHeader(header: Header) returns (bytes: array<Byte>)
    ensures fresh(bytes) && bytes[..] == HeaderBytes(header)
  {
    bytes := new Byte[HEADER_LENGTH];
    bytes[0] := FirstByte(header);
    var marshalled := Marshal(header.id);
    for i := 0 to 16
      invariant bytes[0] == FirstByte(header)
      invariant forall j | 0 <= j < i :: bytes[1 + j] == marshalled[j]
    {
      bytes[1 + i] := marshalled[i];
    }
    assert forall j | 0 <= j < HEADER_LENGTH :: bytes[j] == HeaderBytes(header)[j];
  }

  function HeaderOf(bytes: seq<Byte>): Header
    requires |bytes| == HEADER_LENGTH
  {
    Header(bytes[0] / 64 % 4, bytes[0] / 4 % 16, Unmarshal(bytes[1..]))
  }

  /** A header with a two-bit version and a four-bit type is read back as written. */
  lemma HeaderRoundTrip(header: Header)
    requires header.version < 4 && header.kind < 16
    ensures HeaderOf(HeaderBytes(header)) == header
  {
    MarshalRoundTrip(header.id);
    assert HeaderBytes(header)[1..] == Marshal(header.id);
  }

  lemma FirstByteRewrite(b: Byte)
    ensures b / 64 % 4 % 4 * 64 + b / 4 % 16 % 16 * 4 == b - b % 4
  {
  }

  lemma HeadReplaced(bytes: seq<Byte>, b: Byte)
    requires bytes != []
    ensures [b] + bytes[1..] == bytes[0 := b]
  {
  }

  /** Writing what was read restores all but the two reserved bits, which are cleared. */
  lemma HeaderRewrite(bytes: seq<Byte>)
    requires |bytes| == HEADER_LENGTH
    ensures HeaderBytes(HeaderOf(bytes)) == bytes[0 := bytes[0] - bytes[0] % 4]
  {
    hide Unmarshal;
    hide Marshal;
    UnmarshalRoundTrip(bytes[1..]);
    FirstByteRewrite(bytes[0]);
    HeadReplaced(bytes, FirstByte(HeaderOf(bytes)));
  }

  // ---- Requests ----

  /** How many bytes of the listener array a length code stands for. */
  function AddressLength(code: Byte): (length: Option<nat>)
    ensures length.Some? ==> 1 <= length.value <= LISTENER_LENGTH
  {
    match code
    case 0 => Some(1)
    case 2 => Some(4)
    case 3 => Some(6)
    case 4 => Some(16)
    case 5 => Some(16)
    case _ => None
  }

  function Address(code: Byte, listener: Listener): seq<Byte>
    requires AddressLength(code).Some?
  {
    listener[..AddressLength(code).value]
  }

  function RequestBytes(r: Request): seq<Byte>
    requires AddressLength(r.code).Some?
  {
    [r.priority % 8 * 32 + r.code % 8 * 4] + Address(r.code, r.listener)
    + [r.length / 256 % 256, r.length % 256] + r.payload
  }

  /** The parsing constructor; None where it throws. */
  function RequestOf(data: seq<Byte>, listener: Listener): Option<Request>
  {
    if data == [] then None
    else
      var code := data[0] / 4 % 8;
      match AddressLength(code)
      case None => None
      case Some(n) =>
        if |data| < 3 + n then None
        else
          var length := LengthAt(data, 1 + n);
          if |data| < 3 + n + length then None
          else Some(Request(data[0] / 32 % 8, code, data[1..1 + n] + listener[n..], length, data[3 + n..3 + n + length]))
  }

  function LengthAt(data: seq<Byte>, i: nat): nat
    requires i + 1 < |data|
  {
    256 * (data[i] as int) + data[i + 1] as int
  }

  /** The loop that fills the listener array; false where reading past the end throws. */
  method ReadAddress(data: seq<Byte>, n: nat, listener: array<Byte>) returns (ok: bool)
    requires n <= listener.Length == LISTENER_LENGTH && data != []
    modifies listener
    ensures ok <==> 1 + n <= |data|
    ensures ok ==> listener[..] == data[1..1 + n] + old(listener[..])[n..]
  {
    var i := 0;
    while i != n
      invariant 0 <= i <= n && i < |data|
      invariant forall j | 0 <= j < i :: listener[j] == data[j + 1]
      invariant forall j | i <= j < LISTENER_LENGTH :: listener[j] == old(listener[j])
    {
      if i + 1 >= |data| {
        return false;
      }
      listener[i] := data[i + 1];
      i := i + 1;
    }
    return true;
  }

  /** The loop that collects the payload. */
  method ReadPayload(data: seq<Byte>, start: nat, length: nat) returns (payload: Option<seq<Byte>>)
    requires start <= |data|
    ensures payload == if start + length <= |data| then Some(data[start..start + length]) else None
  {
    var bytes: seq<Byte> := [];
    while |bytes| != length
      invariant |bytes| <= length && start + |bytes| <= |data|
      invariant bytes == data[start..start + |bytes|]
      decreases length - |bytes|
    {
      if start + |bytes| >= |data| {
        return None;
      }
      bytes := bytes + [data[start + |bytes|]];
    }
    return Some(bytes);
  }

  /** The parsing constructor of EAR and MAR; `listener` is the array as found. */
  method ParseRequest(data: seq<Byte>, listener: array<Byte>) returns (request: Option<Request>)
    requires listener.Length == LISTENER_LENGTH
    modifies listener
    ensures request == RequestOf(data, old(listener[..]))
  {
    if data == [] {
      return None;
    }
    var n := AddressLength(data[0] / 4 % 8);
    if !n.Some? {
      return None;
    }
    var ok := ReadAddress(data, n.value, listener);
    if !ok || |data| < 3 + n.value {
      return None;
    }
    var length := LengthAt(data, 1 + n.value);
    var payload := ReadPayload(data, 3 + n.value, length);
    if !payload.Some? {
      return None;
    }
    return Some(Request(data[0] / 32 % 8, data[0] / 4 % 8, listener[..], length, payload.value));
  }

  /** What reading back a request must restore: everything but the high bits of the priority, the
      unused end of the listener array, and payload beyond the announced length. */
  ghost predicate SameRequest(r: Request, r': Request)
  {
    && r'.code == r.code && AddressLength(r.code).Some? && Address(r.code, r'.listener) == Address(r.code, r.listener)
    && r'.priority == r.priority % 8 && r'.length == r.length <= |r.payload| && r'.payload == r.payload[..r.length]
  }

  /** Where the parts of a request lie in its bytes. */
  lemma Layout(first: Byte, address: seq<Byte>, high: Byte, low: Byte, payload: seq<Byte>, tail: seq<Byte>, length: nat)
    requires length <= |payload|
    ensures var data, n := [first] + address + [high, low] + payload + tail, |address|;
            && |data| >= 3 + n + length && data[0] == first && data[1..1 + n] == address
            && data[1 + n] == high && data[2 + n] == low && data[3 + n..3 + n + length] == payload[..length]
  {
  }

  lemma FirstByteFields(priority: Byte, code: Byte)
    requires code < 8
    ensures var first: Byte := priority % 8 * 32 + code % 8 * 4;
            first / 32 % 8 == priority % 8 && first / 4 % 8 == code
  {
  }

  lemma RequestFrom(r: Request, data: seq<Byte>, listener: Listener, n: nat)
    requires AddressLength(r.code) == Some(n) && r.length <= |r.payload| && r.length < 0x1_0000
    requires |data| >= 3 + n + r.length && data[0] == r.priority % 8 * 32 + r.code % 8 * 4
    requires data[1..1 + n] == Address(r.code, r.listener)
    requires data[1 + n] == r.length / 256 % 256 && data[2 + n] == r.length % 256
    requires data[3 + n..3 + n + r.length] == r.payload[..r.length]
    ensures RequestOf(data, listener).Some? && SameRequest(r, RequestOf(data, listener).value)
  {
    FirstByteFields(r.priority, r.code);
    assert LengthAt(data, 1 + n) == r.length;
    var address := Address(r.code, r.listener);
    assert (address + listener[n..])[..n] == address;
  }

  lemma RequestRoundTrip(r: Request, tail: seq<Byte>, listener: Listener)
    requires AddressLength(r.code).Some? && r.length <= |r.payload| && r.length < 0x1_0000
    ensures var r' := RequestOf(RequestBytes(r) + tail, listener);
            r'.Some? && SameRequest(r, r'.value)
  {
    hide RequestOf;
    var n, address := AddressLength(r.code).value, Address(r.code, r.listener);
    Layout(r.priority % 8 * 32 + r.code % 8 * 4, address, r.length / 256 % 256, r.length % 256, r.payload, tail, r.length);
    RequestFrom(r, RequestBytes(r) + tail, listener, n);
  }

  // ---- Listeners of REP ----

  function ListenerOf(data: seq<Byte>, listener: Listener): Option<(Byte, Listener)>
  {
    if data == [] then None
    else
      var code := data[0] / 32 % 8;
      match AddressLength(code)
      case None => None
      case Some(n) => if |data| < 1 + n then None else Some((code, data[1..1 + n] + listener[n..]))
  }

  method ParseListener(data: seq<Byte>, listener: array<Byte>) returns (parsed: Option<(Byte, Listener)>)
    requires listener.Length == LISTENER_LENGTH
    modifies listener
    ensures parsed == ListenerOf(data, old(listener[..]))
  {
    if data == [] {
      return None;
    }
    var n := AddressLength(data[0] / 32 % 8);
    if !n.Some? {
      return None;
    }
    var ok := ReadAddress(data, n.value, listener);
    if !ok {
      return None;
    }
    return Some((data[0] / 32 % 8, listener[..]));
  }

  // ---- Packets ----

  function Kind(p: Packet): Byte
  {
    match p
    case Ear(_, _, _) => 0
    case Mar(_, _, _) => 1
    case Bid(_, _, _) => 2
    case Acc(_, _) => 3
    case Ref(_, _) => 4
    case Rep(_, _, _, _, _) => 5
  }

  function HeaderFor(p: Packet): Header
  {
    Header(p.version, Kind(p), p.id)
  }

  /** raw_payload: empty for an unknown listener code. */
  function Encode(p: Packet): seq<Byte>
  {
    var head := HeaderBytes(HeaderFor(p));
    match p
    case Ear(_, _, r) => if AddressLength(r.code).Some? then head + RequestBytes(r) else []
    case Mar(_, _, r) => if AddressLength(r.code).Some? then head + RequestBytes(r) else []
    case Bid(_, _, value) => head + value
    case Acc(_, _) => head
    case Ref(_, _) => head
    case Rep(_, _, code, listener, reserved) =>
      if AddressLength(code).Some? then head + [code % 8 * 32 + reserved % 4] + Address(code, listener) else []
  }

  datatype Parsed = NoMessage | Thrown | Parsed(packet: Packet)

  /** parse_message_from_bytes without conversion from network order; `listener` is the uninitialised
      array of the new message. */
  function Decode(bytes: seq<Byte>, listener: Listener): Parsed
  {
    if |bytes| < HEADER_LENGTH then NoMessage
    else
      var header, data := HeaderOf(bytes[..HEADER_LENGTH]), bytes[HEADER_LENGTH..];
      match header.kind
      case 0 => (match RequestOf(data, listener) case None => Thrown case Some(r) => Parsed(Ear(header.version, header.id, r)))
      case 1 => (match RequestOf(data, listener) case None => Thrown case Some(r) => Parsed(Mar(header.version, header.id, r)))
      case 2 => if |data| < 4 then Thrown else Parsed(Bid(header.version, header.id, data[..4]))
      case 3 => Parsed(Acc(header.version, header.id))
      case 4 => Parsed(Ref(header.version, header.id))
      case 5 => (match ListenerOf(data, listener)
                 case None => Thrown
                 case Some(l) => Parsed(Rep(header.version, header.id, l.0, l.1, 0)))
      case _ => NoMessage
  }

  /** Packets the codec is meant for: a two-bit version, a known listener code, a four-byte bid and a
      payload length that the payload covers. */
  ghost predicate Sendable(p: Packet)
  {
    && p.version < 4
    && (p.Ear? || p.Mar? ==>
          AddressLength(p.request.code).Some? && p.request.length <= |p.request.payload| && p.request.length < 0x1_0000)
    && (p.Bid? ==> |p.value| == 4)
    && (p.Rep? ==> AddressLength(p.code).Some?)
  }

  ghost predicate SamePacket(p: Packet, p': Packet)
  {
    && p'.version == p.version && p'.id == p.id
    && match p
       case Ear(_, _, r) => p'.Ear? && SameRequest(r, p'.request)
       case Mar(_, _, r) => p'.Mar? && SameRequest(r, p'.request)
       case Bid(_, _, value) => p'.Bid? && p'.value == value
       case Acc(_, _) => p'.Acc?
       case Ref(_, _) => p'.Ref?
       case Rep(_, _, code, listener, _) =>
         p'.Rep? && p'.code == code && AddressLength(code).Some? && Address(code, p'.listener) == Address(code, listener)
  }

  lemma HeadOf(p: Packet, rest: seq<Byte>)
    requires p.version < 4
    ensures var bytes := HeaderBytes(HeaderFor(p)) + rest;
            HeaderOf(bytes[..HEADER_LENGTH]) == HeaderFor(p) && bytes[HEADER_LENGTH..] == rest
  {
    HeaderRoundTrip(HeaderFor(p));
    var head := HeaderBytes(HeaderFor(p));
    assert (head + rest)[..HEADER_LENGTH] == head;
  }

  /** Parsing what a message encodes to, whatever follows it, gives the message back. */
  lemma WireRoundTrip(p: Packet, tail: seq<Byte>, listener: Listener)
    requires Sendable(p)
    ensures Decode(Encode(p) + tail, listener).Parsed? && SamePacket(p, Decode(Encode(p) + tail, listener).packet)
  {
    hide HeaderBytes;
    hide HeaderOf;
    hide RequestOf;
    hide RequestBytes;
    var head := HeaderBytes(HeaderFor(p));
    var body := Encode(p)[HEADER_LENGTH..];
    assert Encode(p) + tail == head + (body + tail);
    HeadOf(p, body + tail);
    match p
    case Ear(_, _, r) => assert body == RequestBytes(r); RequestRoundTrip(r, tail, listener);
    case Mar(_, _, r) => assert body == RequestBytes(r); RequestRoundTrip(r, tail, listener);
    case Bid(_, _, value) => assert (body + tail)[..4] == value;
    case Acc(_, _) =>
    case Ref(_, _) =>
    case Rep(_, _, code, l, reserved) =>
      var n := AddressLength(code).value;
      assert (body + tail)[1..1 + n] == Address(code, l);
      assert (Address(code, l) + listener[n..])[..n] == Address(code, l);
  }

  /** An EAR, MAR or REP with an unknown listener code encodes to nothing, which is no message. */
  lemma UnknownCode(p: Packet, listener: Listener)
    requires match p
             case Ear(_, _, r) => AddressLength(r.code) == None
             case Mar(_, _, r) => AddressLength(r.code) == None
             case Rep(_, _, code, _, _) => AddressLength(code) == None
             case _ => false
    ensures Encode(p) == [] && Decode(Encode(p), listener) == NoMessage
  {
  }

  /** The announced length is kept in sixteen bits: of a longer payload only the first bytes, as many
      as the length modulo 65536, come back. */
  lemma LongPayload(p: Packet, tail: seq<Byte>, listener: Listener)
    requires p.Ear? && p.version < 4 && AddressLength(p.request.code).Some?
    requires p.request.length == |p.request.payload| % 0x1_0000
    ensures var parsed := Decode(Encode(p) + tail, listener);
            && parsed.Parsed? && parsed.packet.Ear?
            && (parsed.packet.request.payload == p.request.payload <==> |p.request.payload| < 0x1_0000)
  {
    hide Decode;
    hide Encode;
    hide Address;
    WireRoundTrip(p, tail, listener);
    WholePrefix(p.request.payload, p.request.length);
  }

  lemma WholePrefix(payload: seq<Byte>, n: nat)
    requires n <= |payload|
    ensures payload[..n] == payload <==> n == |payload|
  {
  }

  lemma EncodedLength(p: Packet)
    requires Sendable(p)
    ensures |Encode(p)| == HEADER_LENGTH +
            match p
            case Ear(_, _, r) => 3 + AddressLength(r.code).value + |r.payload|
            case Mar(_, _, r) => 3 + AddressLength(r.code).value + |r.payload|
            case Bid(_, _, _) => 4
            case Acc(_, _) => 0
            case Ref(_, _) => 0
            case Rep(_, _, code, _, _) => 1 + AddressLength(code).value
  {
    hide HeaderBytes;
  }

  ghost predicate Whole(p: Packet)
  {
    Sendable(p) && (p.Ear? || p.Mar? ==> p.request.length == |p.request.payload|)
  }

  lemma BothSame(p: Packet, q: Packet, r: Packet)
    requires Whole(p) && Whole(q) && SamePacket(p, r) && SamePacket(q, r)
    ensures Kind(p) == Kind(q) && p.version == q.version && p.id == q.id && |Encode(p)| == |Encode(q)|
    ensures p.Ear? || p.Mar? ==> p.request.payload == q.request.payload
  {
    hide Encode;
    EncodedLength(p);
    EncodedLength(q);
  }

  lemma SameRest(head: seq<Byte>, head': seq<Byte>, tail: seq<Byte>, tail': seq<Byte>)
    requires |head| == |head'| && head + tail == head' + tail'
    ensures tail == tail'
  {
    assert (head + tail)[|head|..] == tail && (head' + tail')[|head|..] == tail';
  }

  /** The encoding is self-delimiting: two messages that begin the same byte string are the same
      message, and are followed by the same bytes. */
  lemma SelfDelimiting(p: Packet, q: Packet, tail: seq<Byte>, tail': seq<Byte>)
    requires Whole(p) && Whole(q) && Encode(p) + tail == Encode(q) + tail'
    ensures Kind(p) == Kind(q) && p.version == q.version && p.id == q.id && tail == tail'
    ensures p.Ear? || p.Mar? ==> p.request.payload == q.request.payload
  {
    hide Decode;
    hide Encode;
    hide SamePacket;
    var listener: Listener := seq(LISTENER_LENGTH, i => 0);
    WireRoundTrip(p, tail, listener);
    WireRoundTrip(q, tail', listener);
    BothSame(p, q, Decode(Encode(p) + tail, listener).packet);
    SameRest(Encode(p), Encode(q), tail, tail');
  }

  /** The byte order conversion applied byte by byte on a little-endian machine: each byte is swapped
      into the high half of a 16-bit word, which is then cut off. */
  function FromNetwork(bytes: seq<Byte>): (out: seq<Byte>)
    ensures |out| == |bytes|
    ensures forall i | 0 <= i < |bytes| :: out[i] == (bytes[i] as int) * 256 % 256
  {
    seq(|bytes|, i requires 0 <= i < |bytes| => (bytes[i] as int) * 256 % 256)
  }

  /** So with that conversion every message of a given length parses alike. */
  lemma NetworkOrderErases(bytes: seq<Byte>, other: seq<Byte>, listener: Listener)
    requires |bytes| == |other|
    ensures Decode(FromNetwork(bytes), listener) == Decode(FromNetwork(other), listener)
  {
    assert FromNetwork(bytes) == FromNetwork(other) by {
      assert forall i | 0 <= i < |bytes| :: FromNetwork(bytes)[i] == 0 == FromNetwork(other)[i];
    }
  }
}
