/** The bid set of an auction. A std::set of (value, bidder) pairs is the sequence of its elements in
    ascending order. */
module Auction {
  import opened Basics

  datatype Bid = Bid(value: real, bidder: Byte)

  predicate Below(a: Bid, b: Bid)
  {
    a.value < b.value || (a.value == b.value && a.bidder < b.bidder)
  }

  ghost predicate Ascending(bids: seq<Bid>)
  {
    forall i, j | 0 <= i < j < |bids| :: Below(bids[i], bids[j])
  }

  function Insert(bids: seq<Bid>, b: Bid): seq<Bid>
  {
    if bids == [] then [b]
    else if bids[0] == b then bids
    else if Below(b, bids[0]) then [b] + bids
    else [bids[0]] + Insert(bids[1..], b)
  }

  lemma {:induction false} InsertKeepsOrder(bids: seq<Bid>, b: Bid)
    requires Ascending(bids)
    ensures Ascending(Insert(bids, b))
    ensures forall c :: c in Insert(bids, b) <==> c in bids || c == b
    ensures |Insert(bids, b)| == if b in bids then |bids| else |bids| + 1
  {
    if bids == [] || bids[0] == b || Below(b, bids[0]) {
      if bids != [] && Below(b, bids[0]) {
        assert forall i | 0 <= i < |bids| :: Below(b, bids[i]);
      }
    } else {
      var rest := Insert(bids[1..], b);
      InsertKeepsOrder(bids[1..], b);
      assert bids == [bids[0]] + bids[1..];
      assert Below(bids[0], b);
      forall j | 0 <= j < |rest| ensures Below(bids[0], rest[j]) {
        assert rest[j] in rest;
      }
    }
  }

  /** The bidders whose bid has the value v, in order. */
  function At(bids: seq<Bid>, v: real): seq<Byte>
  {
    if bids == [] then []
    else
      var front, last := bids[..|bids| - 1], bids[|bids| - 1];
      At(front, v) + if last.value == v then [last.bidder] else []
  }

  function Winners(bids: seq<Bid>): seq<Byte>
    requires bids != []
  {
    At(bids, bids[|bids| - 1].value)
  }

  /** Handler::max_bids. */
  method MaxBids(bids: seq<Bid>) returns (winners: seq<Byte>)
    requires bids != []
    ensures winners == Winners(bids)
  {
    var maximum := bids[|bids| - 1].value;
    winners := [];
    for i := 0 to |bids|
      invariant winners == At(bids[..i], maximum)
    {
      assert bids[..i + 1][..i] == bids[..i];
      if maximum == bids[i].value {
        winners := winners + [bids[i].bidder];
      }
    }
    assert bids[..|bids|] == bids;
  }

  lemma {:induction false} AtExactly(bids: seq<Bid>, v: real)
    requires Ascending(bids)
    ensures forall b: Byte :: b in At(bids, v) <==> Bid(v, b) in bids
    ensures forall i, j | 0 <= i < j < |At(bids, v)| :: At(bids, v)[i] < At(bids, v)[j]
  {
    if bids != [] {
      var front, last := bids[..|bids| - 1], bids[|bids| - 1];
      assert bids == front + [last];
      AtExactly(front, v);
      if last.value == v {
        var a := At(front, v);
        forall i | 0 <= i < |a| ensures a[i] < last.bidder {
          assert a[i] in a;
          assert Bid(v, a[i]) in front;
        }
        assert last == Bid(v, last.bidder);
      }
    }
  }

  /** The winners are exactly the bidders whose bid is the maximum: a non-empty list without
      repetition. */
  lemma WinnersExactly(bids: seq<Bid>)
    requires Ascending(bids) && bids != []
    ensures Winners(bids) != []
    ensures forall i, j | 0 <= i < j < |Winners(bids)| :: Winners(bids)[i] < Winners(bids)[j]
    ensures forall b: Byte :: b in Winners(bids) <==>
              exists bid <- bids :: bid.bidder == b && forall c <- bids :: c.value <= bid.value
  {
    var top := bids[|bids| - 1];
    AtExactly(bids, top.value);
    assert top == Bid(top.value, top.bidder) && top in bids;
    forall c | c in bids ensures c.value <= top.value {
      var i :| 0 <= i < |bids| && bids[i] == c;
    }
    forall b: Byte
      ensures b in Winners(bids) <==> exists bid <- bids :: bid.bidder == b && forall c <- bids :: c.value <= bid.value
    {
      if b in Winners(bids) {
        var bid := Bid(top.value, b);
        assert bid in bids && bid.bidder == b;
      }
      if exists bid <- bids :: bid.bidder == b && forall c <- bids :: c.value <= bid.value {
        var bid :| bid in bids && bid.bidder == b && forall c <- bids :: c.value <= bid.value;
        assert top.value <= bid.value;
        assert bid == Bid(top.value, b);
      }
    }
  }

  // ---- Counting the arrivals ----

  /** The auction fields of a handler; both counters are single bytes. */
  datatype Tally = Tally(waiting: Byte, arriving: Byte, bids: seq<Bid>)

  /** Both ways a bid reaches the handler insert it and count one arrival. */
  function Arrive(t: Tally, b: Bid): Tally
  {
    t.(bids := Insert(t.bids, b), arriving := (t.arriving + 1) % 256)
  }

  function ArriveAll(t: Tally, bids: seq<Bid>): Tally
  {
    if bids == [] then t else Arrive(ArriveAll(t, bids[..|bids| - 1]), bids[|bids| - 1])
  }

  predicate AllArrived(t: Tally)
  {
    t.waiting == t.arriving
  }

  ghost predicate OnePerBidder(bids: seq<Bid>)
  {
    forall i, j | 0 <= i < j < |bids| :: bids[i].bidder != bids[j].bidder
  }

  /** The counters, whatever the bids are. */
  lemma {:induction false} Counted(n: Byte, bids: seq<Bid>)
    requires |bids| <= 255
    ensures ArriveAll(Tally(n, 0, []), bids).arriving == |bids| && ArriveAll(Tally(n, 0, []), bids).waiting == n
  {
    hide Insert;
    if bids != [] {
      Counted(n, bids[..|bids| - 1]);
    }
  }

  /** The bid set, when no bidder bids twice. */
  lemma {:induction false} Collected(n: Byte, bids: seq<Bid>)
    requires OnePerBidder(bids)
    ensures var all := ArriveAll(Tally(n, 0, []), bids).bids;
            Ascending(all) && |all| == |bids| && forall b :: b in all <==> b in bids
  {
    if bids != [] {
      var front, last := bids[..|bids| - 1], bids[|bids| - 1];
      assert bids == front + [last] && last !in front;
      Collected(n, front);
      InsertKeepsOrder(ArriveAll(Tally(n, 0, []), front).bids, last);
      hide Insert;
      hide Ascending;
      hide OnePerBidder;
    }
  }

  /** After opening an auction for n neighbours, whatever bids they send, at most one each: the bid
      set holds exactly the bids that arrived, its size and the arrivals agree and never exceed n,
      and all-arrived holds exactly at the n-th bid. */
  lemma {:induction false} AuctionCompletes(n: nat, bids: seq<Bid>)
    requires 2 <= n <= 255 && |bids| <= n && OnePerBidder(bids)
    ensures var t := ArriveAll(Tally(n, 0, []), bids);
            && Ascending(t.bids) && |t.bids| == t.arriving == |bids| <= t.waiting == n
            && (forall b :: b in t.bids <==> b in bids)
            && (AllArrived(t) <==> |bids| == n)
  {
    hide ArriveAll;
    Counted(n, bids);
    Collected(n, bids);
  }
}
