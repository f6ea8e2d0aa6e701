/** The walk over the route attributes of a netlink message. An attribute is a 16-bit length, a 16-bit
    type and the rest of its length in data, padded to a multiple of four; numbers are little-endian. */
module Netlink {
  import opened Basics

  function U16(buf: seq<Byte>, p: nat): (n: nat)
    requires p + 1 < |buf|
    ensures n < 0x1_0000
  {
    buf[p] as nat + 256 * buf[p + 1] as nat
  }

  function Align(n: nat): (a: nat)
    ensures n <= a < n + 4
  {
    (n + 3) / 4 * 4
  }

  /** The bits of a that are not in b. */
  function AndNot(a: nat, b: nat): (r: nat)
    ensures r <= a
  {
    if a == 0 then 0 else 2 * AndNot(a / 2, b / 2) + if a % 2 == 1 && b % 2 == 0 then 1 else 0
  }

  /** An attribute that lies within the buffer starts at p. */
  predicate Sits(buf: seq<Byte>, p: nat)
  {
    p + 4 <= |buf| && 4 <= U16(buf, p) <= |buf| - p
  }

  function After(buf: seq<Byte>, p: nat): nat
    requires Sits(buf, p)
  {
    p + Align(U16(buf, p))
  }

  function TypeAt(buf: seq<Byte>, p: nat, flags: nat): nat
    requires Sits(buf, p)
  {
    AndNot(U16(buf, p + 2), flags)
  }

  /** Attributes start at all these positions but the last, each where the one before ends. */
  ghost predicate Linked(buf: seq<Byte>, cuts: seq<nat>)
  {
    && cuts != [] && cuts[0] == 0
    && (forall i | 0 <= i < |cuts| - 1 :: Sits(buf, cuts[i]))
    && (forall i | 0 <= i < |cuts| - 1 :: cuts[i + 1] == After(buf, cuts[i]))
  }

  /** The buffer is cut into aligned attributes without remainder. */
  ghost predicate Tiles(buf: seq<Byte>, cuts: seq<nat>)
  {
    Linked(buf, cuts) && cuts[|cuts| - 1] == |buf|
  }

  /** The first of the attributes at the given positions with the masked type t. */
  ghost function FirstOf(buf: seq<Byte>, starts: seq<nat>, flags: nat, t: nat): Option<nat>
    requires forall i | 0 <= i < |starts| :: Sits(buf, starts[i])
  {
    if starts == [] then None
    else
      var k := |starts| - 1;
      match FirstOf(buf, starts[..k], flags, t)
      case Some(p) => Some(p)
      case None => if TypeAt(buf, starts[k], flags) == t then Some(starts[k]) else None
  }

  /** FirstOf finds an attribute of the type that no earlier one shares, unless there is none. */
  lemma {:induction false} FirstOfIs(buf: seq<Byte>, starts: seq<nat>, flags: nat, t: nat)
    requires forall i | 0 <= i < |starts| :: Sits(buf, starts[i])
    ensures var first := FirstOf(buf, starts, flags, t);
            if first.Some?
            then exists i | 0 <= i < |starts| ::
                   && starts[i] == first.value && TypeAt(buf, starts[i], flags) == t
                   && forall j | 0 <= j < i :: TypeAt(buf, starts[j], flags) != t
            else forall i | 0 <= i < |starts| :: TypeAt(buf, starts[i], flags) != t
  {
    if starts != [] {
      var k := |starts| - 1;
      var front := starts[..k];
      FirstOfIs(buf, front, flags, t);
      if FirstOf(buf, front, flags, t).Some? {
        var i :| 0 <= i < |front| && front[i] == FirstOf(buf, front, flags, t).value && TypeAt(buf, front[i], flags) == t
                 && forall j | 0 <= j < i :: TypeAt(buf, front[j], flags) != t;
        assert starts[i] == front[i];
        assert forall j | 0 <= j < i :: starts[j] == front[j];
      } else {
        assert forall j | 0 <= j < k :: starts[j] == front[j];
      }
    }
  }

  /** Every tiling of the buffer begins with every linked run of attributes. */
  lemma {:induction false} Forced(buf: seq<Byte>, cuts: seq<nat>, tiling: seq<nat>, i: nat)
    requires Linked(buf, cuts) && Tiles(buf, tiling) && i < |cuts|
    ensures i < |tiling| && tiling[i] == cuts[i]
  {
    if i > 0 {
      Forced(buf, cuts, tiling, i - 1);
      assert Sits(buf, cuts[i - 1]);
    }
  }

  /** A buffer has at most one tiling. */
  lemma TilingIsUnique(buf: seq<Byte>, cuts: seq<nat>, tiling: seq<nat>)
    requires Tiles(buf, cuts) && Tiles(buf, tiling)
    ensures cuts == tiling
  {
    Forced(buf, cuts, tiling, |cuts| - 1);
    Forced(buf, tiling, cuts, |tiling| - 1);
    forall i | 0 <= i < |cuts| ensures cuts[i] == tiling[i] {
      Forced(buf, cuts, tiling, i);
    }
  }

  /** A linked run that can go no further and does not end with the buffer shows that there is no
      tiling. */
  lemma NoTiling(buf: seq<Byte>, cuts: seq<nat>, tiling: seq<nat>)
    requires Linked(buf, cuts) && cuts[|cuts| - 1] != |buf| && !Sits(buf, cuts[|cuts| - 1])
    ensures !Tiles(buf, tiling)
  {
    if Tiles(buf, tiling) {
      Forced(buf, cuts, tiling, |cuts| - 1);
    }
  }

  lemma Extended(buf: seq<Byte>, cuts: seq<nat>)
    requires Linked(buf, cuts) && Sits(buf, cuts[|cuts| - 1])
    ensures Linked(buf, cuts + [After(buf, cuts[|cuts| - 1])])
  {
  }

  /** parse_rtattr_flags: succeeds exactly when aligned attributes tile the buffer; the table then maps
      each type up to max to its first attribute and every other type to nothing. */
  method ParseAttributes(tb: array<Option<nat>>, buf: seq<Byte>, flags: nat) returns (ok: bool, ghost cuts: seq<nat>)
    modifies tb
    ensures ok <==> exists tiling :: Tiles(buf, tiling)
    ensures ok ==> Tiles(buf, cuts)
    ensures ok ==> forall t | 0 <= t < tb.Length :: tb[t] == FirstOf(buf, cuts[..|cuts| - 1], flags, t)
  {
    for i := 0 to tb.Length
      invariant forall j | 0 <= j < i :: tb[j] == None
    {
      tb[i] := None;
    }
    var rta: nat, len: int := 0, |buf|;
    cuts := [0];
    while len >= 4 && U16(buf, rta) >= 4 && U16(buf, rta) <= len
      invariant Linked(buf, cuts) && cuts[|cuts| - 1] == rta && len == |buf| - rta
      invariant forall t | 0 <= t < tb.Length :: tb[t] == FirstOf(buf, cuts[..|cuts| - 1], flags, t)
      decreases len
    {
      var kind := AndNot(U16(buf, rta + 2), flags);
      ghost var starts := cuts[..|cuts| - 1];
      Extended(buf, cuts);
      assert (starts + [rta])[..|starts|] == starts && starts + [rta] == cuts;
      cuts := cuts + [After(buf, rta)];
      assert cuts[..|cuts| - 1] == starts + [rta];
      if kind < tb.Length && tb[kind].None? {
        tb[kind] := Some(rta);
      }
      len := len - Align(U16(buf, rta));
      rta := rta + Align(U16(buf, rta));
    }
    ok := len == 0;
    if ok {
      assert Tiles(buf, cuts);
    } else {
      forall tiling ensures !Tiles(buf, tiling) {
        NoTiling(buf, cuts, tiling);
      }
    }
  }
}
