/** The admission request that applications write to the FIFO of the daemon. */
module Admission {
  import opened Basics
  import opened Identifiers

  const UINT32_BOUND := 0x1_0000_0000

  datatype Kind = Simulation | Mac | Ipv4 | Ipv6 | Dds

  datatype AdmissionRequest = AdmissionRequest(
    requirements: seq<Byte>, priority: Byte, target: seq<Byte>, kind: Kind, pid: nat)

  // ---- Bitwise or ----

  function Or(a: nat, b: nat): nat
  {
    if a == 0 then b else if b == 0 then a
    else 2 * Or(a / 2, b / 2) + if a % 2 == 1 || b % 2 == 1 then 1 else 0
  }

  function Pow2(k: nat): (p: nat)
    ensures p >= 1
  {
    if k == 0 then 1 else 2 * Pow2(k - 1)
  }

  lemma {:induction false} OrHalves(x: nat, y: nat)
    requires x > 0 && Or(x / 2, y / 2) == x / 2 && y % 2 == x % 2
    ensures Or(x, y) == x
  {
  }

  /** Or-ing a number with its own low bits changes nothing. */
  lemma {:induction false} OrAbsorbs(x: nat, k: nat)
    ensures Or(x, x % Pow2(k)) == x
  {
    hide Or;
    if x == 0 || k == 0 {
      OrZero(x);
    } else {
      HalfRemainder(x, Pow2(k - 1));
      OrAbsorbs(x / 2, k - 1);
      OrHalves(x, x % Pow2(k));
    }
  }

  lemma {:induction false} OrZero(x: nat)
    ensures Or(x, 0) == x && Or(0, x) == x
  {
  }

  lemma HalfRemainder(x: nat, p: nat)
    requires p >= 1
    ensures x % (2 * p) / 2 == x / 2 % p && x % (2 * p) % 2 == x % 2
  {
    var half, low := x / 2, x % 2;
    var q, r := half / p, half % p;
    assert half == p * q + r;
    assert x == 2 * (p * q + r) + low;
    assert 2 * (p * q) == (2 * p) * q;
    RemainderIs(x, 2 * p, q, 2 * r + low);
  }

  lemma {:induction false} OrTwice(a: nat, b: nat)
    ensures Or(2 * a, 2 * b) == 2 * Or(a, b)
  {
  }

  /** The overlap of two neighbouring bytes of a field: m's bits above the lowest, or-ed with its low
      eight, are all of them. */
  lemma {:induction false} Overlap(m: nat, k: nat)
    requires k >= 7
    ensures Or(2 * (m / 2 % Pow2(k)), m % 256) == m % (2 * Pow2(k))
  {
    var p, x := Pow2(k), m / 2 % Pow2(k);
    HalfRemainder(m, p);
    HalfRemainder(m, 128);
    assert Pow2(7) == 128;
    assert p == Pow2(k - 7) * 128 by {
      PowSplit(k - 7, 7);
    }
    NestedRemainder(m / 2, 128, Pow2(k - 7));
    assert m % 256 / 2 == x % Pow2(7);
    OrAbsorbs(x, 7);
    assert m % 256 == 2 * (x % 128) + m % 2;
    OrSplit(x, x % 128, m % 2);
  }

  lemma OrSplit(a: nat, b: nat, low: nat)
    requires low < 2
    ensures Or(2 * a, 2 * b + low) == 2 * Or(a, b) + low
  {
  }

  lemma {:induction false} PowSplit(i: nat, j: nat)
    ensures Pow2(i + j) == Pow2(i) * Pow2(j)
  {
    if i > 0 {
      PowSplit(i - 1, j);
      assert 2 * Pow2(i - 1) * Pow2(j) == 2 * (Pow2(i - 1) * Pow2(j));
    }
  }

  // ---- Four-byte fields ----

  /** The number shifted right by 3, 2, 1 and 0 bits, the low byte of each. */
  function Field(n: nat): seq<Byte>
  {
    [n / 8 % 256, n / 4 % 256, n / 2 % 256, n % 256]
  }

  function FieldValue(s: seq<Byte>): nat
    requires |s| == 4
  {
    Or(Or(Or((s[0] as nat) * 8, (s[1] as nat) * 4), (s[2] as nat) * 2), s[3])
  }

  lemma {:induction false} Joined(a: nat, b: nat, c: nat, d: nat, x: nat, y: nat)
    requires Or(2 * a, b) == x && Or(2 * x, c) == y
    ensures Or(Or(Or(a * 8, b * 4), c * 2), d) == Or(2 * y, d)
  {
    hide Or;
    OrTwice(4 * a, 2 * b);
    OrTwice(2 * a, b);
    OrTwice(2 * x, c);
  }

  lemma Halves(n: nat)
    ensures n / 8 == n / 4 / 2 && n / 4 == n / 2 / 2
  {
  }

  lemma Powers()
    ensures Pow2(8) == 256 && Pow2(9) == 512 && Pow2(10) == 1024
  {
    assert Pow2(4) == 16;
    assert Pow2(6) == 64;
    assert Pow2(8) == 256;
  }

  /** A field keeps the low eleven bits of its number. */
  lemma FieldKeeps(n: nat)
    ensures FieldValue(Field(n)) == n % 2048
  {
    hide Or;
    Powers();
    Halves(n);
    Overlap(n / 4, 8);
    Overlap(n / 2, 9);
    Overlap(n, 10);
    hide Pow2;
    Joined(n / 8 % 256, n / 4 % 256, n / 2 % 256, n % 256, n / 4 % 512, n / 2 % 1024);
  }

  /** The writing loop. */
  method PushField(serialized: seq<Byte>, n: nat) returns (out: seq<Byte>)
    ensures out == serialized + Field(n)
  {
    out := serialized;
    var i := 3;
    while i >= 0
      invariant -1 <= i <= 3
      invariant out == serialized + Field(n)[..3 - i]
    {
      out := out + [n / (if i == 3 then 8 else if i == 2 then 4 else if i == 1 then 2 else 1) % 256];
      i := i - 1;
    }
  }

  /** The reading loop: the value, and the pointer moved past it. */
  method TakeField(serialized: seq<Byte>, start: nat) returns (n: nat, pointer: nat)
    requires start + 4 <= |serialized|
    ensures n == FieldValue(serialized[start..start + 4]) && pointer == start + 4
  {
    hide Or;
    n, pointer := 0, start;
    var i := 3;
    while i >= 0
      invariant -1 <= i <= 3 && pointer == start + 3 - i
      invariant n == Accumulated(serialized[start..start + 4], 3 - i)
    {
      n := Or(n, serialized[pointer] as nat * (if i == 3 then 8 else if i == 2 then 4 else if i == 1 then 2 else 1));
      pointer := pointer + 1;
      i := i - 1;
    }
    AllAccumulated(serialized[start..start + 4]);
  }

  lemma {:induction false} AllAccumulated(s: seq<Byte>)
    requires |s| == 4
    ensures Accumulated(s, 4) == FieldValue(s)
  {
    hide Or;
    OrZero(s[0] as nat * 8);
    assert Accumulated(s, 1) == s[0] as nat * 8;
    assert Accumulated(s, 2) == Or(s[0] as nat * 8, s[1] as nat * 4);
  }

  /** What the reading loop has accumulated after k bytes. */
  function Accumulated(s: seq<Byte>, k: nat): nat
    requires |s| == 4 && k <= 4
  {
    if k == 0 then 0
    else Or(Accumulated(s, k - 1), s[k - 1] as nat * (if k == 1 then 8 else if k == 2 then 4 else if k == 3 then 2 else 1))
  }

  // ---- The request ----

  /** The enumeration gives 2 to MAC and 3 to IPv4 ... */
  function CodeOf(kind: Kind): Byte
  {
    match kind
    case Simulation => 0
    case Mac => 2
    case Ipv4 => 3
    case Ipv6 => 4
    case Dds => 5
  }

  /** ... and the reader takes 2 for IPv4 and 3 for MAC. */
  function KindOf(code: Byte): Option<Kind>
  {
    match code
    case 0 => Some(Simulation)
    case 2 => Some(Ipv4)
    case 3 => Some(Mac)
    case 4 => Some(Ipv6)
    case 5 => Some(Dds)
    case _ => None
  }

  function Serialized(r: AdmissionRequest): seq<Byte>
  {
    Field(|r.requirements| % UINT32_BOUND) + r.requirements + [r.priority, CodeOf(r.kind), |r.target| % 256]
    + r.target + Field(r.pid)
  }

  /** None where the reader throws or runs past the end of its input. */
  function Deserialized(s: seq<Byte>): Option<AdmissionRequest>
  {
    if |s| < 4 then None
    else
      var n := FieldValue(s[..4]);
      if |s| < 7 + n || KindOf(s[5 + n]) == None then None
      else
        var m := 7 + n + s[6 + n];
        if |s| < m + 4 then None
        else Some(AdmissionRequest(s[4..4 + n], s[4 + n], s[7 + n..m], KindOf(s[5 + n]).value, FieldValue(s[m..m + 4])))
  }

  method SerializeToRank(r: AdmissionRequest) returns (serialized: seq<Byte>)
    ensures serialized == Serialized(r)
  {
    hide Or;
    serialized := PushField([], |r.requirements| % UINT32_BOUND);
    var start := serialized;
    for i := 0 to |r.requirements|
      invariant serialized == start + r.requirements[..i]
    {
      serialized := serialized + [r.requirements[i]];
    }
    serialized := serialized + [r.priority] + [CodeOf(r.kind)] + [|r.target| % 256];
    start := serialized;
    for i := 0 to |r.target|
      invariant serialized == start + r.target[..i]
    {
      serialized := serialized + [r.target[i]];
    }
    serialized := PushField(serialized, r.pid);
  }

  /** The loops that read a counted byte string. */
  method TakeBytes(serialized: seq<Byte>, start: nat, n: nat) returns (bytes: seq<Byte>, pointer: nat)
    requires start + n <= |serialized|
    ensures bytes == serialized[start..start + n] && pointer == start + n
  {
    bytes, pointer := [], start;
    while |bytes| != n
      invariant |bytes| <= n && pointer == start + |bytes| && bytes == serialized[start..pointer]
      decreases n - |bytes|
    {
      bytes := bytes + [serialized[pointer]];
      pointer := pointer + 1;
    }
  }

  method Deserialize(s: seq<Byte>) returns (request: Option<AdmissionRequest>)
    ensures request == Deserialized(s)
  {
    hide FieldValue;
    if |s| < 4 {
      return None;
    }
    var n, pointer := TakeField(s, 0);
    if |s| < 7 + n {
      return None;
    }
    var requirements;
    requirements, pointer := TakeBytes(s, pointer, n);
    var priority, kind, length := s[pointer], KindOf(s[pointer + 1]), s[pointer + 2];
    if !kind.Some? || |s| < pointer + 7 + length {
      return None;
    }
    var target;
    target, pointer := TakeBytes(s, pointer + 3, length as nat);
    var pid;
    pid, pointer := TakeField(s, pointer);
    return Some(AdmissionRequest(requirements, priority, target, kind.value, pid));
  }

  /** The request with the tags MAC and IPv4 exchanged. */
  function Swapped(r: AdmissionRequest): AdmissionRequest
  {
    r.(kind := if r.kind == Mac then Ipv4 else if r.kind == Ipv4 then Mac else r.kind)
  }

  lemma Layout(field: seq<Byte>, requirements: seq<Byte>, priority: Byte, code: Byte, length: Byte, target: seq<Byte>, field': seq<Byte>)
    requires |field| == 4 && |field'| == 4
    ensures var s, n := field + requirements + [priority, code, length] + target + field', |requirements|;
            && s[..4] == field && s[4..4 + n] == requirements
            && s[4 + n] == priority && s[5 + n] == code && s[6 + n] == length
            && s[7 + n..7 + n + |target|] == target && s[7 + n + |target|..7 + n + |target| + 4] == field'
            && |s| == 11 + n + |target|
  {
  }

  lemma Small(n: nat)
    requires n < 2048
    ensures n % UINT32_BOUND == n && n % 2048 == n
  {
  }

  lemma Fits(r: AdmissionRequest)
    requires |r.requirements| < 2048 && r.pid < 2048 && |r.target| < 256
    ensures Deserialized(Serialized(r)) == Some(Swapped(r))
  {
    hide Field;
    hide FieldValue;
    var n := |r.requirements|;
    Small(n);
    Small(r.pid);
    FieldKeeps(n);
    FieldKeeps(r.pid);
    FieldLength(n);
    FieldLength(r.pid);
    Layout(Field(n), r.requirements, r.priority, CodeOf(r.kind), |r.target|, r.target, Field(r.pid));
  }

  lemma FieldLength(n: nat)
    ensures |Field(n)| == 4
  {
  }

  /** What comes back, if anything: never more than 2047 bytes of requirements, 255 of target, and a
      process id below 2048. */
  lemma ReadBack(r: AdmissionRequest)
    requires Deserialized(Serialized(r)).Some?
    ensures var r' := Deserialized(Serialized(r)).value;
            |r'.requirements| < 2048 && |r'.target| < 256
            && (|r.requirements| < 2048 && |r.target| < 256 ==> r'.pid == r.pid % 2048)
  {
    hide Field;
    hide FieldValue;
    var n := |r.requirements|;
    FieldKeeps(n % UINT32_BOUND);
    FieldKeeps(r.pid);
    FieldLength(n % UINT32_BOUND);
    FieldLength(r.pid);
    assert Serialized(r)[..4] == Field(n % UINT32_BOUND);
    if n < 2048 && |r.target| < 256 {
      Small(n);
      Layout(Field(n), r.requirements, r.priority, CodeOf(r.kind), |r.target|, r.target, Field(r.pid));
    }
  }

  /** The request comes back whole, its tag swapped if it is MAC or IPv4, exactly when the requirements
      are shorter than 2048 bytes, the target shorter than 256, and the process id below 2048. */
  lemma RequestRoundTrip(r: AdmissionRequest)
    ensures Deserialized(Serialized(r)) == Some(Swapped(r))
       <==> |r.requirements| < 2048 && |r.target| < 256 && r.pid < 2048
  {
    hide Serialized;
    hide Deserialized;
    if |r.requirements| < 2048 && |r.target| < 256 && r.pid < 2048 {
      Fits(r);
    } else if Deserialized(Serialized(r)).Some? {
      ReadBack(r);
    }
  }

  /** So Simulation, IPv6 and DDS targets round-trip exactly, and MAC and IPv4 never do. */
  lemma ExactRoundTrip(r: AdmissionRequest)
    requires |r.requirements| < 2048 && |r.target| < 256 && r.pid < 2048
    ensures Deserialized(Serialized(r)) == Some(r) <==> r.kind != Mac && r.kind != Ipv4
  {
    hide Serialized;
    hide Deserialized;
    RequestRoundTrip(r);
  }
}
