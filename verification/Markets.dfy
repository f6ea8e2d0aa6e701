/** Whole histories with an auction: one bid is the highest, or two are and the tie is split. */
module Markets {
  import opened Basics
  import opened Identifiers
  import opened Routes
  import opened Auction
  import opened Protocol
  import opened Handlers
  import opened Processes
  import opened Sessions
  import opened Isolation
  import opened Requests
  import opened Network
  import opened Passage
  import opened Outcomes
  import opened Journeys
  import L = Ledger

  /** The origin at place 0, two neighbours at places 1 and 2, and the listener at place 3, which the
      first neighbour reaches. `first` and `second` are the neighbours' addresses at the origin. */
  datatype Market = Market(origin: Stop, winner: Stop, other: Stop, listener: Stop, first: Byte, second: Byte)

  /** Everybody bids for the request, and the wires are where the messages go. */
  ghost predicate Wired(wired: Wiring, k: Market, m: Message)
  {
    && m.id != SENTINEL && k.first < k.second
    && (forall stop <- [k.origin, k.winner, k.other, k.listener] :: Welcome(stop.env, m))
    && !k.origin.env.isMe(m.listener) && !k.winner.env.isMe(m.listener) && k.listener.env.isMe(m.listener)
    && (var conns := Kept(k.origin.env.conns(m.listener));
        |conns| == 2 && wired(0, conns[0].locator, 1) && wired(0, conns[1].locator, 2))
    && (var conns := k.winner.env.conns(k.winner.from); conns != [] && wired(1, conns[0].locator, 0))
    && (var conns := k.other.env.conns(k.other.from); conns != [] && wired(2, conns[0].locator, 0))
    && (var conns := k.origin.env.conns(k.first); conns != [] && wired(0, conns[0].locator, 1))
    && k.origin.env.conns(k.second) != []
    && (var conns := Kept(k.winner.env.conns(m.listener)); |conns| == 1 && wired(1, conns[0].locator, 3))
    && (var conns := Kept(k.listener.env.conns(k.listener.from)); conns != [] && wired(3, conns[0].locator, 1))
    && LeadsBack(wired, 1, k.winner.env, k.winner.from, 0)
  }

  function BidOf(stop: Stop, m: Message): real
    requires m.EAR?
    requires BidFor(stop.env, m).Some?
  {
    BidFor(stop.env, m).value
  }

  function AskFor(m: Message): Message
    requires m.EAR?
  {
    MAR(m.id, m.priority, m.listener, m.payload)
  }

  /** The origin with its auction open. */
  function Asker(stop: Stop, m: Message): Node
    requires m.EAR?
    requires BidFor(stop.env, m).Some?
  {
    var n := With(Start(m, 0), m, stop.from, AuctionWaiting, EntryAt(stop, m), 2);
    Put(n, 0, n.handlers[0].(tally := Tally(2, 0, [])))
  }

  function Offered(stop: Stop, m: Message): L.Reservation
    requires m.EAR?
    requires BidFor(stop.env, m).Some?
  {
    EntryFor(AskFor(m), BidOf(stop, m), L.PreReserved, None)
  }

  /** A neighbour that has made its bid. */
  function Bidder(stop: Stop, m: Message, place: nat): Node
    requires m.EAR?
    requires BidFor(stop.env, m).Some?
  {
    With(Start(m, place), AskFor(m), stop.from, PreReserved, Offered(stop, m), 2)
  }

  // ---- The steps ----

  /** A neighbour is asked and bids. */
  lemma {:induction false} BidRecord(stop: Stop, m: Message, place: nat, cause: Cause) returns (r: Record)
    requires Welcome(stop.env, m) && m.id != SENTINEL && place > 0 && stop.env.conns(stop.from) != []
    ensures m.EAR? && BidFor(stop.env, m).Some?
    ensures r == Record(place, stop.env, Arrival(stop.from, AskFor(m)), cause, Start(m, place), Bidder(stop, m, place),
                        [Send(BID(m.id, BidOf(stop, m)), stop.env.conns(stop.from)[0].locator)])
    ensures Sound(r.before, r.env, r.event) && Step(r.before, r.env, r.event) == Done(r.after, r.outs)
  {
    hide Deliver;
    hide Sound;
    StartIsUnheard(m, place);
    Bids(Start(m, place), stop.env, stop.from, AskFor(m));
    SoundArrival(Start(m, place), stop.env, stop.from, AskFor(m));
    r := Record(place, stop.env, Arrival(stop.from, AskFor(m)), cause, Start(m, place), Bidder(stop, m, place),
                [Send(BID(m.id, BidOf(stop, m)), stop.env.conns(stop.from)[0].locator)]);
  }

  /** The origin asks both. */
  lemma {:induction false} AskRecord(stop: Stop, m: Message) returns (r: Record)
    requires Welcome(stop.env, m) && m.id != SENTINEL && !stop.env.isMe(m.listener)
    requires |Kept(stop.env.conns(m.listener))| == 2
    ensures BidFor(stop.env, m).Some? && m.EAR?
    ensures var conns := Kept(stop.env.conns(m.listener));
            r == Record(0, stop.env, Arrival(stop.from, m), Injected, Start(m, 0), Asker(stop, m),
                        [Send(AskFor(m), conns[0].locator), Send(AskFor(m), conns[1].locator)])
    ensures Sound(r.before, r.env, r.event) && Step(r.before, r.env, r.event) == Done(r.after, r.outs)
  {
    hide Deliver;
    hide Sound;
    hide Kept;
    var conns := Kept(stop.env.conns(m.listener));
    StartIsUnheard(m, 0);
    Asks(Start(m, 0), stop.env, stop.from, m);
    SoundArrival(Start(m, 0), stop.env, stop.from, m);
    var outs := [Send(AskFor(m), conns[0].locator), Send(AskFor(m), conns[1].locator)];
    assert SendEach(AskFor(m), conns) == outs;
    r := Record(0, stop.env, Arrival(stop.from, m), Injected, Start(m, 0), Asker(stop, m), outs);
  }

  /** The session at the origin: its one entry, its origin id, and the translations it has made. */
  ghost predicate AtOrigin(n: Node, stop: Stop, m: Message)
  {
    && m.EAR? && BidFor(stop.env, m).Some? && Sole(n, 0, m.id, 0) && n.origins == {m.id} && m.id !in n.table
    && n.cells[0].res == EntryAt(stop, m)
  }

  lemma {:induction false} AskerIsAtOrigin(stop: Stop, m: Message)
    requires Welcome(stop.env, m)
    ensures m.EAR? && BidFor(stop.env, m).Some? && AtOrigin(Asker(stop, m), stop, m) && Asker(stop, m).table == map[]
  {
    StartIsUnheard(m, 0);
    WithIsSole(Start(m, 0), m, stop.from, AuctionWaiting, EntryAt(stop, m), 2);
  }

  /** A bid reaches the origin: the first one hands the handler over to the auction, the second finds
      it blocked. */
  lemma {:induction false} CountRecord(n: Node, stop: Stop, m: Message, bidder: Byte, value: real, cause: Cause)
    returns (r: Record)
    requires AtOrigin(n, stop, m) && m.id != SENTINEL && n.handlers[0].state == AuctionWaiting
    ensures r.place == 0 && r.env == stop.env && r.event == Arrival(bidder, BID(m.id, value)) && r.cause == cause
    ensures r.before == n && r.outs == [] && AtOrigin(r.after, stop, m) && r.after.table == n.table
    ensures var hd := r.after.handlers[0];
            hd.state == AuctionWaiting && hd.running && hd.tally == Arrive(n.handlers[0].tally, Bid(value, bidder))
    ensures Sound(r.before, r.env, r.event) && Step(r.before, r.env, r.event) == Done(r.after, r.outs)
  {
    hide Deliver;
    hide Sound;
    TakesBid(n, 0, stop.env, bidder, m.id, value, 0);
    SoundArrival(n, stop.env, bidder, BID(m.id, value));
    var o := Deliver(n, stop.env, bidder, BID(m.id, value));
    r := Record(0, stop.env, Arrival(bidder, BID(m.id, value)), cause, n, o.node, o.outs);
  }

  /** What the origin sends to the winner: the request under the id t, without its requirements. */
  function Chosen(m: Message, t: Id): Message
    requires m.EAR?
  {
    EAR(t, m.priority, m.listener, Empty)
  }

  /** The request under the id t. */
  function Under(m: Message, t: Id): Message
    requires m.EAR?
  {
    EAR(t, m.priority, m.listener, m.payload)
  }

  /** The origin's auction is over: its first message went to the first neighbour, under the id t. */
  ghost predicate Decided(n: Node, k: Market, m: Message, t: Id, outs: seq<Out>)
  {
    && AtOrigin(n, k.origin, m) && n.handlers[0].state == PreReserved && !n.handlers[0].running
    && t.time == m.id.time && (t != m.id ==> t in n.table && n.table[t] == m.id)
    && k.origin.env.conns(k.first) != [] && outs != []
    && outs[0] == Send(Chosen(m, t), k.origin.env.conns(k.first)[0].locator)
  }

  /** Of two bids the higher one wins, in whichever order they arrive ... */
  lemma HigherWins(high: real, low: real, first: Byte, second: Byte)
    requires high > low
    ensures Insert(Insert([], Bid(high, first)), Bid(low, second)) != []
    ensures Winners(Insert(Insert([], Bid(high, first)), Bid(low, second))) == [first]
  {
    var bids := [Bid(low, second), Bid(high, first)];
    assert Insert(Insert([], Bid(high, first)), Bid(low, second)) == bids;
    assert bids[..1] == [Bid(low, second)] && bids[..1][..0] == [];
    assert At(bids[..1], high) == [];
  }

  /** ... and of two equal ones both do. */
  lemma BothWin(value: real, first: Byte, second: Byte)
    requires first < second
    ensures Insert(Insert([], Bid(value, first)), Bid(value, second)) != []
    ensures Winners(Insert(Insert([], Bid(value, first)), Bid(value, second))) == [first, second]
  {
    var bids := [Bid(value, first), Bid(value, second)];
    assert Insert(Insert([], Bid(value, first)), Bid(value, second)) == bids;
    assert bids[..1] == [Bid(value, first)] && bids[..1][..0] == [];
    assert At(bids[..1], value) == [first];
  }

  lemma {:induction false} ChooseRecord(n: Node, k: Market, m: Message, draw: nat -> Entropy) returns (r: Record)
    requires AtOrigin(n, k.origin, m) && n.handlers[0].running && n.handlers[0].tally.bids != []
    requires Winners(n.handlers[0].tally.bids) == [k.first] && k.origin.env.conns(k.first) != []
    ensures r.place == 0 && r.env == k.origin.env && r.event == Awakening(0, draw) && r.before == n
    ensures Decided(r.after, k, m, m.id, r.outs)
    ensures Sound(r.before, r.env, r.event) && Step(r.before, r.env, r.event) == Done(r.after, r.outs)
  {
    hide Wake;
    hide Winners;
    Chooses(n, 0, k.origin.env, draw, m.id, 0, k.first);
    var o := Wake(n, 0, k.origin.env, draw);
    r := Record(0, k.origin.env, Awakening(0, draw), Injected, n, o.node, o.outs);
  }

  lemma {:induction false} TwoTranslations(id: Id, one: Entropy, two: Entropy)
    requires one != two && one != id.entropy && two != id.entropy
    ensures Translations(map[], id, [one, two]) == map[Id(id.time, one) := id, Id(id.time, two) := id]
  {
    assert [one, two][..1] == [one] && [one][..0] == [];
    assert Translations(map[], id, [one]) == map[Id(id.time, one) := id];
  }

  lemma {:induction false} SplitRecord(n: Node, k: Market, m: Message, one: Entropy, two: Entropy) returns (r: Record)
    requires AtOrigin(n, k.origin, m) && n.table == map[] && n.handlers[0].running && n.handlers[0].tally.bids != []
    requires Winners(n.handlers[0].tally.bids) == [k.first, k.second]
    requires k.origin.env.conns(k.first) != [] && k.origin.env.conns(k.second) != []
    requires one != two && one != m.id.entropy && two != m.id.entropy
    ensures r.place == 0 && r.env == k.origin.env && r.event.Awakening? && r.before == n
    ensures Decided(r.after, k, m, Id(m.id.time, one), r.outs) && |r.outs| == 2
    ensures r.outs[1] == Send(Chosen(m, Id(m.id.time, two)), k.origin.env.conns(k.second)[0].locator)
    ensures Sound(r.before, r.env, r.event) && Step(r.before, r.env, r.event) == Done(r.after, r.outs)
  {
    hide Wake;
    hide Winners;
    var draw := (i: nat) => if i == 0 then one else two;
    ChoosesAll(n, 0, k.origin.env, draw, m.id, 0);
    TwoTranslations(m.id, one, two);
    assert Drawn(draw, 2) == [one, two];
    var o := Wake(n, 0, k.origin.env, draw);
    r := Record(0, k.origin.env, Awakening(0, draw), Injected, n, o.node, o.outs);
  }

  /** The winner, with the past node in its entry, under the id it was chosen by. */
  ghost predicate AtWinner(n: Node, stop: Stop, m: Message, t: Id)
  {
    && Sole(n, 0, t, 0) && n.origins == {} && n.table == map[] && n.handlers[0].state == PreReserved && !n.handlers[0].running
    && n.cells[0].res.state == L.PreReserved && n.cells[0].res.past == Some(stop.from)
  }

  lemma {:induction false} OnwardRecord(stop: Stop, m: Message, place: nat, t: Id, cause: Cause) returns (r: Record)
    requires Welcome(stop.env, m) && m.id != SENTINEL && t != SENTINEL && t.time == m.id.time && place > 0
    requires !stop.env.isMe(m.listener) && |Kept(stop.env.conns(m.listener))| == 1
    ensures m.EAR? && BidFor(stop.env, m).Some? && r.place == place && r.env == stop.env && r.cause == cause
    ensures r.event == Arrival(stop.from, Chosen(m, t)) && r.before == Bidder(stop, m, place)
    ensures r.outs == [Send(Under(m, t), Kept(stop.env.conns(m.listener))[0].locator)] && AtWinner(r.after, stop, m, t)
    ensures Sound(r.before, r.env, r.event) && Step(r.before, r.env, r.event) == Done(r.after, r.outs)
  {
    hide Deliver;
    hide Sound;
    hide Kept;
    var n := Bidder(stop, m, place);
    StartIsUnheard(m, place);
    WithIsSole(Start(m, place), AskFor(m), stop.from, PreReserved, Offered(stop, m), 2);
    assert KeyFor(n, m.id, Chosen(m, t)) == Some(t);
    SendsOn(n, 0, stop.env, stop.from, Chosen(m, t), m.id, 0);
    SoundArrival(n, stop.env, stop.from, Chosen(m, t));
    var o := Deliver(n, stop.env, stop.from, Chosen(m, t));
    r := Record(place, stop.env, Arrival(stop.from, Chosen(m, t)), cause, n, o.node, o.outs);
  }

  lemma {:induction false} LastRecord(stop: Stop, m: Message, place: nat, cause: Cause) returns (r: Record)
    requires Welcome(stop.env, m) && m.id != SENTINEL && place > 0 && stop.env.isMe(m.listener)
    requires Kept(stop.env.conns(stop.from)) != []
    ensures r.place == place && r.env == stop.env && r.cause == cause
    ensures r.event == Arrival(stop.from, m) && r.before == INITIAL_NODE
    ensures r.outs == [Send(ACC(m.id), Kept(stop.env.conns(stop.from))[0].locator)]
    ensures Sound(r.before, r.env, r.event) && Step(r.before, r.env, r.event) == Done(r.after, r.outs)
  {
    hide Deliver;
    hide Sound;
    hide Kept;
    StartIsUnheard(m, place);
    LastHop(INITIAL_NODE, stop.env, stop.from, m);
    SoundArrival(INITIAL_NODE, stop.env, stop.from, m);
    var o := Deliver(INITIAL_NODE, stop.env, stop.from, m);
    r := Record(place, stop.env, Arrival(stop.from, m), cause, INITIAL_NODE, o.node, o.outs);
  }

  lemma {:induction false} BackRecord(wired: Wiring, n: Node, stop: Stop, m: Message, t: Id, cause: Cause) returns (r: Record)
    requires AtWinner(n, stop, m, t) && t != SENTINEL && LeadsBack(wired, 1, stop.env, stop.from, 0)
    ensures r.place == 1 && r.env == stop.env && r.cause == cause
    ensures r.event == Arrival(stop.back, ACC(t)) && r.before == n
    ensures |r.outs| == 1 && r.outs[0].Send? && r.outs[0].msg == ACC(t) && wired(1, r.outs[0].locator, 0)
    ensures Sound(r.before, r.env, r.event) && Step(r.before, r.env, r.event) == Done(r.after, r.outs)
  {
    hide Deliver;
    hide Sound;
    SuccessPassedOn(n, 0, stop.env, stop.back, t, t, 0);
    var o := Deliver(n, stop.env, stop.back, ACC(t));
    r := Record(1, stop.env, Arrival(stop.back, ACC(t)), cause, n, o.node, o.outs);
  }

  lemma {:induction false} ReportRecord(n: Node, k: Market, m: Message, t: Id, outs: seq<Out>, cause: Cause) returns (r: Record)
    requires Decided(n, k, m, t, outs) && m.id != SENTINEL && t != SENTINEL
    ensures r.place == 0 && r.env == k.origin.env && r.cause == cause
    ensures r.event == Arrival(k.origin.back, ACC(t)) && r.before == n && r.outs == [Report(true, m.id)]
    ensures Sound(r.before, r.env, r.event) && Step(r.before, r.env, r.event) == Done(r.after, r.outs)
  {
    hide Deliver;
    hide Sound;
    SuccessReported(n, 0, k.origin.env, k.origin.back, t, m.id, 0);
    var o := Deliver(n, k.origin.env, k.origin.back, ACC(t));
    r := Record(0, k.origin.env, Arrival(k.origin.back, ACC(t)), cause, n, o.node, o.outs);
  }

  // ---- The histories ----

  lemma WiredBids(wired: Wiring, k: Market, m: Message)
    requires Wired(wired, k, m)
    ensures m.EAR? && m.payload.Carries?
    ensures forall stop <- [k.origin, k.winner, k.other, k.listener] :: Welcome(stop.env, m) && BidFor(stop.env, m).Some?
  {
  }

  /** The origin has asked both neighbours. */
  lemma {:induction false} Asked(wired: Wiring, k: Market, m: Message) returns (history: seq<Record>)
    requires Wired(wired, k, m)
    ensures m.EAR? && BidFor(k.origin.env, m).Some?
    ensures Legal(wired, history) && |history| == 2 && StateOf(history, 0) == Asker(k.origin, m)
    ensures forall p: nat | p > 0 :: StateOf(history, p) == Start(m, p)
    ensures history[1].event == Arrival(k.origin.from, m) && history[1].cause == Injected && history[1].place == 0
    ensures var conns := Kept(k.origin.env.conns(m.listener));
            |conns| == 2 && history[1].outs == [Send(AskFor(m), conns[0].locator), Send(AskFor(m), conns[1].locator)]
  {
    WiredBids(wired, k, m);
    hide Welcome;
    hide Kept;
    hide Sound;
    hide Step;
    hide Legal;
    hide Asker;
    hide LeadsBack;
    history := Begin(wired, k.origin.env, m);
    var asked := AskRecord(k.origin, m);
    assert Received(wired, history + [asked], 1);
    Grow(wired, history, asked);
    history := history + [asked];
  }

  /** ... and the first has bid. */
  lemma {:induction false} FirstBid(wired: Wiring, k: Market, m: Message) returns (history: seq<Record>)
    requires Wired(wired, k, m)
    ensures m.EAR? && BidFor(k.origin.env, m).Some? && BidFor(k.winner.env, m).Some?
    ensures Legal(wired, history) && |history| == 3
    ensures StateOf(history, 0) == Asker(k.origin, m) && StateOf(history, 1) == Bidder(k.winner, m, 1)
    ensures forall p: nat | p > 1 :: StateOf(history, p) == Start(m, p)
    ensures history[1].event == Arrival(k.origin.from, m) && history[1].cause == Injected && history[1].place == 0
    ensures |history[1].outs| == 2 && history[1].outs[1] == Send(AskFor(m), Kept(k.origin.env.conns(m.listener))[1].locator)
    ensures var conns := k.winner.env.conns(k.winner.from);
            history[2].place == 1 && conns != [] && history[2].outs == [Send(BID(m.id, BidOf(k.winner, m)), conns[0].locator)]
  {
    WiredBids(wired, k, m);
    hide Welcome;
    hide Kept;
    hide Sound;
    hide Step;
    hide Legal;
    hide Asker;
    hide Bidder;
    hide LeadsBack;
    history := Asked(wired, k, m);
    var high := BidRecord(k.winner, m, 1, SentBy(1, 0));
    assert Received(wired, history + [high], 2);
    Grow(wired, history, high);
    history := history + [high];
  }

  /** ... and both have bid. */
  lemma {:induction false} Opening(wired: Wiring, k: Market, m: Message) returns (history: seq<Record>)
    requires Wired(wired, k, m)
    ensures m.EAR? && forall stop <- [k.origin, k.winner, k.other] :: BidFor(stop.env, m).Some?
    ensures Legal(wired, history) && |history| == 4
    ensures StateOf(history, 0) == Asker(k.origin, m) && StateOf(history, 1) == Bidder(k.winner, m, 1)
    ensures StateOf(history, 3) == INITIAL_NODE
    ensures history[1].event == Arrival(k.origin.from, m) && history[1].cause == Injected
    ensures history[2].place == 1 && history[3].place == 2
    ensures var conns := k.winner.env.conns(k.winner.from);
            conns != [] && history[2].outs == [Send(BID(m.id, BidOf(k.winner, m)), conns[0].locator)]
    ensures var conns := k.other.env.conns(k.other.from);
            conns != [] && history[3].outs == [Send(BID(m.id, BidOf(k.other, m)), conns[0].locator)]
  {
    WiredBids(wired, k, m);
    hide Welcome;
    hide Kept;
    hide Sound;
    hide Step;
    hide Legal;
    hide Asker;
    hide Bidder;
    hide LeadsBack;
    history := FirstBid(wired, k, m);
    var low := BidRecord(k.other, m, 2, SentBy(1, 1));
    assert Received(wired, history + [low], 3);
    Grow(wired, history, low);
    history := history + [low];
  }

  /** The origin has counted both bids. */
  lemma {:induction false} Counted(wired: Wiring, k: Market, m: Message) returns (history: seq<Record>)
    requires Wired(wired, k, m)
    ensures m.EAR? && BidFor(k.winner.env, m).Some? && BidFor(k.other.env, m).Some?
    ensures Legal(wired, history) && |history| == 6
    ensures var n := StateOf(history, 0);
            && AtOrigin(n, k.origin, m) && n.table == map[] && n.handlers[0].running
            && n.handlers[0].tally.bids == Insert(Insert([], Bid(BidOf(k.winner, m), k.first)), Bid(BidOf(k.other, m), k.second))
    ensures StateOf(history, 1) == Bidder(k.winner, m, 1) && StateOf(history, 3) == INITIAL_NODE
    ensures history[1].event == Arrival(k.origin.from, m) && history[1].cause == Injected
  {
    WiredBids(wired, k, m);
    hide Welcome;
    hide Kept;
    hide Sound;
    hide Step;
    hide Legal;
    hide Bidder;
    hide Sole;
    hide Insert;
    hide LeadsBack;
    history := Opening(wired, k, m);
    AskerIsAtOrigin(k.origin, m);
    var one := CountRecord(Asker(k.origin, m), k.origin, m, k.first, BidOf(k.winner, m), SentBy(2, 0));
    assert Received(wired, history + [one], 4);
    Grow(wired, history, one);
    history := history + [one];
    var two := CountRecord(one.after, k.origin, m, k.second, BidOf(k.other, m), SentBy(3, 0));
    assert Received(wired, history + [two], 5);
    Grow(wired, history, two);
    history := history + [two];
  }

  /** Once the first neighbour was sent the request under the id t, it sends it on with all its
      requirements. */
  lemma {:induction false} Onwards(wired: Wiring, k: Market, m: Message, t: Id, history: seq<Record>)
    returns (longer: seq<Record>)
    requires Wired(wired, k, m) && m.EAR? && BidFor(k.winner.env, m).Some? && t != SENTINEL && t.time == m.id.time
    requires Legal(wired, history) && |history| == 7 && history[6].place == 0
    requires Decided(StateOf(history, 0), k, m, t, history[6].outs)
    requires StateOf(history, 1) == Bidder(k.winner, m, 1) && StateOf(history, 3) == INITIAL_NODE
    ensures Legal(wired, longer) && |longer| == 8 && longer[..7] == history
    ensures longer[7].place == 1 && longer[7].outs == [Send(Under(m, t), Kept(k.winner.env.conns(m.listener))[0].locator)]
    ensures StateOf(longer, 0) == StateOf(history, 0) && AtWinner(StateOf(longer, 1), k.winner, m, t)
    ensures StateOf(longer, 3) == INITIAL_NODE
  {
    WiredBids(wired, k, m);
    hide Kept;
    hide Sound;
    hide Step;
    hide Legal;
    hide Sole;
    hide LeadsBack;
    hide Bidder;
    hide Chosen;
    hide AtOrigin;
    hide AtWinner;
    hide Welcome;
    var on := OnwardRecord(k.winner, m, 1, t, SentBy(6, 0));
    assert Received(wired, history + [on], 7);
    Grow(wired, history, on);
    longer := history + [on];
  }

  /** ... to the listener, which accepts. */
  lemma {:induction false} Reaching(wired: Wiring, k: Market, m: Message, t: Id, history: seq<Record>)
    returns (longer: seq<Record>)
    requires Wired(wired, k, m) && m.EAR? && BidFor(k.winner.env, m).Some? && t != SENTINEL && t.time == m.id.time
    requires Legal(wired, history) && |history| == 7 && history[6].place == 0
    requires Decided(StateOf(history, 0), k, m, t, history[6].outs)
    requires StateOf(history, 1) == Bidder(k.winner, m, 1) && StateOf(history, 3) == INITIAL_NODE
    ensures Legal(wired, longer) && |longer| == 9 && longer[..7] == history
    ensures longer[7].outs == [Send(Under(m, t), Kept(k.winner.env.conns(m.listener))[0].locator)]
    ensures StateOf(longer, 0) == StateOf(history, 0) && AtWinner(StateOf(longer, 1), k.winner, m, t)
    ensures var conns := Kept(k.listener.env.conns(k.listener.from));
            longer[8].place == 3 && conns != [] && longer[8].outs == [Send(ACC(t), conns[0].locator)]
  {
    hide Kept;
    hide Sound;
    hide Step;
    hide Legal;
    hide Decided;
    hide LeadsBack;
    hide Bidder;
    hide AtWinner;
    longer := Onwards(wired, k, m, t, history);
    WiredBids(wired, k, m);
    WelcomeUnder(k.listener.env, m, t);
    hide Welcome;
    var last := LastRecord(k.listener, Under(m, t), 3, SentBy(7, 0));
    assert Received(wired, longer + [last], 8);
    Grow(wired, longer, last);
    longer := longer + [last];
  }

  /** ... and the acceptance comes back through the neighbour and is reported for the session's own id. */
  lemma {:induction false} Closing(wired: Wiring, k: Market, m: Message, t: Id, history: seq<Record>)
    returns (longer: seq<Record>)
    requires Wired(wired, k, m) && m.EAR? && BidFor(k.winner.env, m).Some? && t != SENTINEL && t.time == m.id.time
    requires Legal(wired, history) && |history| == 7 && history[6].place == 0
    requires Decided(StateOf(history, 0), k, m, t, history[6].outs)
    requires StateOf(history, 1) == Bidder(k.winner, m, 1) && StateOf(history, 3) == INITIAL_NODE
    ensures Legal(wired, longer) && |longer| == 11 && longer[..7] == history
    ensures longer[7].outs == [Send(Under(m, t), Kept(k.winner.env.conns(m.listener))[0].locator)]
    ensures longer[10].place == 0 && longer[10].event == Arrival(k.origin.back, ACC(t)) && longer[10].outs == [Report(true, m.id)]
  {
    hide Welcome;
    hide Kept;
    hide Sound;
    hide Step;
    hide Legal;
    hide AtOrigin;
    hide AtWinner;
    hide Bidder;
    hide LeadsBack;
    var front := Reaching(wired, k, m, t, history);
    var back := BackRecord(wired, StateOf(front, 1), k.winner, m, t, SentBy(8, 0));
    assert Received(wired, front + [back], 9);
    Grow(wired, front, back);
    longer := front + [back];
    var report := ReportRecord(StateOf(history, 0), k, m, t, history[6].outs, SentBy(9, 0));
    assert Received(wired, longer + [report], 10);
    Grow(wired, longer, report);
    longer := longer + [report];
    assert longer[..7] == front[..7];
  }

  lemma WelcomeUnder(env: Env, m: Message, t: Id)
    requires Welcome(env, m)
    ensures Welcome(env, Under(m, t))
  {
  }

  /** A request goes all the way through an auction: both neighbours are asked and bid, the higher bid
      wins, the winner sends the request on, the listener accepts, and the acceptance comes back
      through the winner to the origin, which reports success. */
  lemma {:induction false} AuctionSuccess(wired: Wiring, k: Market, m: Message) returns (history: seq<Record>)
    requires Wired(wired, k, m) && BidFor(k.winner.env, m).Some? && BidFor(k.other.env, m).Some?
    requires BidFor(k.winner.env, m).value > BidFor(k.other.env, m).value
    ensures Legal(wired, history) && |history| == 11
    ensures history[1].event == Arrival(k.origin.from, m) && history[1].cause == Injected
    ensures history[10].place == 0 && history[10].outs == [Report(true, m.id)]
  {
    hide Welcome;
    hide Kept;
    hide Sound;
    hide Step;
    hide Legal;
    hide Sole;
    hide Insert;
    hide Winners;
    hide Bidder;
    history := Counted(wired, k, m);
    HigherWins(BidOf(k.winner, m), BidOf(k.other, m), k.first, k.second);
    var choice := ChooseRecord(StateOf(history, 0), k, m, i => 0);
    Grow(wired, history, choice);
    var front := history + [choice];
    assert front[6] == choice;
    history := Closing(wired, k, m, m.id, front);
    assert history[1] == front[1];
  }

  /** A request goes all the way through a tie: both neighbours bid the same, each is sent the request
      under an id of its own, the first one's reaches the listener, and its acceptance comes back under
      that id to the origin, which translates it and reports success of its own. */
  lemma {:induction false} TieSuccess(wired: Wiring, k: Market, m: Message, one: Entropy, two: Entropy)
    returns (history: seq<Record>)
    requires Wired(wired, k, m) && BidFor(k.winner.env, m).Some? && BidFor(k.other.env, m).Some?
    requires BidFor(k.winner.env, m).value == BidFor(k.other.env, m).value
    requires one != two && one != m.id.entropy && two != m.id.entropy && Id(m.id.time, one) != SENTINEL
    ensures m.EAR? && Legal(wired, history) && |history| == 11
    ensures history[1].event == Arrival(k.origin.from, m) && history[1].cause == Injected
    ensures var outs := history[6].outs;
            && |outs| == 2 && outs[0].Send? && outs[1].Send?
            && outs[0].msg == Chosen(m, Id(m.id.time, one)) && outs[1].msg == Chosen(m, Id(m.id.time, two))
    ensures history[10].place == 0 && history[10].event == Arrival(k.origin.back, ACC(Id(m.id.time, one)))
    ensures history[10].outs == [Report(true, m.id)]
  {
    hide Welcome;
    hide Kept;
    hide Sound;
    hide Step;
    hide Legal;
    hide Sole;
    hide Insert;
    hide Winners;
    hide Bidder;
    history := Counted(wired, k, m);
    BothWin(BidOf(k.winner, m), k.first, k.second);
    var split := SplitRecord(StateOf(history, 0), k, m, one, two);
    Grow(wired, history, split);
    var front := history + [split];
    assert front[6] == split;
    history := Closing(wired, k, m, Id(m.id.time, one), front);
    assert history[1] == front[1] && history[6] == split;
  }
}
