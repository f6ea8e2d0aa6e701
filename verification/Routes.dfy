/** Connections towards an address, and the loop that keeps the ones of least depth. */
module Routes {
  import opened Basics

  datatype Conn = Conn(depth: Byte, locator: Byte)

  /** The connections whose depth is at most every earlier depth. */
  function Kept(conns: seq<Conn>): seq<Conn>
  {
    if conns == [] then []
    else
      var front, last := conns[..|conns| - 1], conns[|conns| - 1];
      Kept(front) + if IsLow(front, last) then [last] else []
  }

  predicate IsLow(earlier: seq<Conn>, c: Conn)
  {
    forall i | 0 <= i < |earlier| :: c.depth <= earlier[i].depth
  }

  method MinDepth(conns: seq<Conn>) returns (kept: seq<Conn>)
    ensures kept == Kept(conns)
  {
    kept := [];
    var minDepth: Byte := 255;
    for i := 0 to |conns|
      invariant kept == Kept(conns[..i])
      invariant forall j | 0 <= j < i :: minDepth <= conns[j].depth
      invariant minDepth == 255 || exists j | 0 <= j < i :: conns[j].depth == minDepth
    {
      assert conns[..i + 1][..i] == conns[..i];
      if conns[i].depth < minDepth {
        minDepth := conns[i].depth;
      }
      if conns[i].depth == minDepth {
        kept := kept + [conns[i]];
      }
    }
    assert conns[..|conns|] == conns;
  }

  lemma {:induction false} KeptIn(conns: seq<Conn>, i: nat)
    requires i < |Kept(conns)|
    ensures exists j | 0 <= j < |conns| :: conns[j] == Kept(conns)[i]
  {
    var k := |conns| - 1;
    if i < |Kept(conns[..k])| {
      KeptIn(conns[..k], i);
      var j :| 0 <= j < k && conns[..k][j] == Kept(conns[..k])[i];
      assert conns[j] == Kept(conns)[i];
    } else {
      assert conns[k] == Kept(conns)[i];
    }
  }

  lemma {:induction false} KeptFalls(conns: seq<Conn>, i: nat, j: nat)
    requires i < j < |Kept(conns)|
    ensures Kept(conns)[j].depth <= Kept(conns)[i].depth
  {
    var front := conns[..|conns| - 1];
    if j < |Kept(front)| {
      KeptFalls(front, i, j);
    } else {
      KeptIn(front, i);
    }
  }

  lemma {:induction false} KeptEnds(conns: seq<Conn>)
    requires conns != []
    ensures Kept(conns) != [] && Kept(conns)[0] == conns[0] && IsLow(conns, Kept(conns)[|Kept(conns)| - 1])
  {
    var k := |conns| - 1;
    var front, last := conns[..k], conns[k];
    if k > 0 {
      KeptEnds(front);
      if !IsLow(front, last) {
        var i :| 0 <= i < k && front[i].depth < last.depth;
        assert Kept(conns) == Kept(front);
      }
    }
  }

  /** The filter starts with the first connection, ends with one of least depth, never rises, and is
      empty only on empty input. */
  lemma {:induction false} KeptShape(conns: seq<Conn>)
    ensures Kept(conns) == [] <==> conns == []
    ensures conns != [] ==> Kept(conns)[0] == conns[0] && IsLow(conns, Kept(conns)[|Kept(conns)| - 1])
    ensures forall i, j | 0 <= i < j < |Kept(conns)| :: Kept(conns)[j].depth <= Kept(conns)[i].depth
  {
    if conns != [] {
      KeptEnds(conns);
    }
    forall i, j | 0 <= i < j < |Kept(conns)| ensures Kept(conns)[j].depth <= Kept(conns)[i].depth {
      KeptFalls(conns, i, j);
    }
  }

  ghost predicate DepthSorted(conns: seq<Conn>)
  {
    forall i, j | 0 <= i < j < |conns| :: conns[i].depth <= conns[j].depth
  }

  lemma {:induction false} KeptLevel(conns: seq<Conn>, d: Byte)
    requires forall i | 0 <= i < |conns| :: conns[i].depth == d
    ensures Kept(conns) == conns
  {
    if conns != [] {
      var front, last := conns[..|conns| - 1], conns[|conns| - 1];
      KeptLevel(front, d);
      assert IsLow(front, last);
      hide IsLow;
      assert front + [last] == conns;
    }
  }

  /** On input sorted by depth the filter is exactly the block of shortest connections: a prefix that
      shares the first depth, and everything after it lies deeper. */
  lemma {:induction false} KeptWhenSorted(conns: seq<Conn>) returns (n: nat)
    requires DepthSorted(conns)
    ensures n <= |conns| && Kept(conns) == conns[..n]
    ensures forall i | 0 <= i < |conns| :: i < n <==> conns[i].depth == conns[0].depth
    ensures conns != [] ==> n > 0
  {
    var k := |conns| - 1;
    if conns == [] {
      n := 0;
    } else if conns[k].depth == conns[0].depth {
      KeptLevel(conns, conns[0].depth);
      n := |conns|;
    } else {
      n := KeptWhenSorted(conns[..k]);
      assert !IsLow(conns[..k], conns[k]);
      assert conns[..k][..n] == conns[..n];
    }
  }
}
