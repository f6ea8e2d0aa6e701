/** What a session's first request does to the ledger, and how an auction runs at a node. */
module Requests {
  import opened Basics
  import opened Identifiers
  import opened Capabilities
  import opened Routes
  import opened Auction
  import opened Protocol
  import opened Handlers
  import opened Processes
  import opened Sessions
  import opened Isolation
  import opened Terminal
  import L = Ledger

  ghost predicate NoEntry(cells: Cells, s: Time)
  {
    forall i | 0 <= i < |cells| :: TimeOf(cells[i]) != s
  }

  lemma NotAdopted(cells: Cells, id: Id)
    requires NoEntry(cells, id.time)
    ensures L.Adopt(cells, id) == cells && L.Adopted(cells, id) == L.Null
  {
  }

  /** The entry an accepted request leaves: its own data, its bid, and the given state. */
  function EntryFor(m: Message, bid: real, state: L.State, past: Option<Byte>): L.Reservation
    requires m.EAR? || m.MAR?
  {
    L.Reservation(m.id, state, m.priority, Requested(m.payload), m.listener, bid, past, [])
  }

  // ---- The ledger operations on a session without entries ----

  lemma AdmitFirst(cells: Cells, slot: nat, r: L.Reservation, priority: Byte, offer: L.Offer)
    ensures var a, bid := L.Admit(cells, L.Detached(r), priority, offer, slot), offer(r.caps, priority);
            if bid.Some? && bid.value != 0.0
            then a == L.Accepted(cells + [L.Cell(slot, r.(priority := priority, bid := bid.value, state := L.Created))],
                                 L.Detached(r.(priority := priority, bid := bid.value)))
            else a.Refused? && a.cells == cells
  {
  }

  lemma ReserveFirstEntry(cells: Cells, slot: nat, r: L.Reservation)
    requires Addressed(cells, slot) && NoEntry(cells, r.uuid.time) && r.state == L.Created
    ensures L.MarkReserved(cells + [L.Cell(slot, r)], L.Entry(slot))
         == Some(L.Marked(cells + [L.Cell(slot, L.Reserve(r))], L.Entry(slot)))
  {
    hide SameKinds;
    var cells' := cells + [L.Cell(slot, r)];
    L.PositionIs(cells', slot, |cells|);
    L.SameReflexive(r);
    assert L.ReserveFirst(cells', r, |cells| + 1) == cells + [L.Cell(slot, L.Reserve(r))];
  }

  lemma PreReserveFirstEntry(cells: Cells, slot: nat, p: Pointer, r: L.Reservation)
    requires Addressed(cells, slot) && NoEntry(cells, r.uuid.time) && r.state == L.Created
    requires p == L.Detached(r) || p == L.Entry(slot)
    ensures L.MarkPreReserved(cells + [L.Cell(slot, r)], p, slot + 1)
         == Some(L.Marked(cells + [L.Cell(slot, r.(state := L.PreReserved))], L.Entry(slot)))
  {
    hide SameKinds;
    var cells' := cells + [L.Cell(slot, r)];
    L.PositionIs(cells', slot, |cells|);
    L.SameReflexive(r);
    assert L.SamePosition(cells', r) == |cells|;
    assert cells'[|cells| := L.Cell(slot, r.(state := L.PreReserved))] == cells + [L.Cell(slot, r.(state := L.PreReserved))];
  }

  // ---- The handler of a first request ----

  /** The way back is noted in the entry when there is a connection onwards. */
  lemma ForwardFirst(n: Node, h: nat, env: Env, listener: Byte, cells: Cells, slot: nat, r: L.Reservation, source: Byte)
    requires h < |n.handlers| && n.handlers[h].source == Some(source) && n.handlers[h].ptr == L.Entry(slot)
    requires n.cells == cells + [L.Cell(slot, r)] && Addressed(cells, slot)
    requires Forward(n, h, env, listener).Done?
    ensures var r' := if env.conns(listener) == [] then r else r.(past := Some(source));
            Forward(n, h, env, listener).node.cells == cells + [L.Cell(slot, r')]
  {
    L.PositionIs(n.cells, slot, |cells|);
    KeptShape(env.conns(listener));
  }

  /** Handler h has just been made for the message. */
  ghost predicate JustMade(n: Node, h: nat, m: Message, source: Byte)
  {
    && h < |n.handlers| && n.handlers[h] == NewHandler(m.id).(source := Some(source))
    && m.id in n.store && n.store[m.id] == h
  }

  function BidFor(env: Env, m: Message): Option<real>
    requires m.EAR? || m.MAR?
  {
    if m.payload.Malformed? then None else env.offer(Requested(m.payload), m.priority)
  }

  /** What the first request may leave in the ledger. */
  ghost predicate FirstEffect(n: Node, env: Env, source: Byte, m: Message, n': Node)
    requires m.EAR? || m.MAR?
  {
    var bid := BidFor(env, m);
    if bid.Some? && bid.value != 0.0 then
      var atListener := m.EAR? && env.isMe(m.listener);
      n'.cells == n.cells + [L.Cell(n.slot, EntryFor(
        m, bid.value,
        if atListener then L.Reserved else L.PreReserved,
        if m.MAR? || atListener || env.conns(m.listener) == [] then None else Some(source)))]
    else n'.cells == n.cells
  }

  lemma FirstMar(n: Node, h: nat, env: Env, source: Byte, m: Message)
    requires m.MAR? && JustMade(n, h, m, source) && Addressed(n.cells, n.slot) && NoEntry(n.cells, m.id.time)
    requires HandleMar(n, h, env, m).Done?
    ensures FirstEffect(n, env, source, m, HandleMar(n, h, env, m).node)
  {
    hide L.Admit;
    hide L.MarkPreReserved;
    hide L.Adopt;
    hide L.Adopted;
    NotAdopted(n.cells, m.id);
    if !m.payload.Malformed? {
      var r := Statement(m.id, m.priority, Requested(m.payload), m.listener);
      AdmitFirst(n.cells, n.slot, r, m.priority, env.offer);
      var bid := BidFor(env, m);
      if bid.Some? && bid.value != 0.0 {
        PreReserveFirstEntry(n.cells, n.slot, L.Entry(n.slot), r.(bid := bid.value));
      }
    }
  }

  lemma FirstAtListener(n: Node, h: nat, env: Env, m: Message)
    requires m.EAR? && h < |n.handlers| && !m.payload.Malformed?
    requires n.handlers[h].ptr == L.Detached(Statement(m.id, m.priority, Requested(m.payload), m.listener))
    requires Addressed(n.cells, n.slot) && NoEntry(n.cells, m.id.time)
    requires EarAtListener(n, h, env, m.priority).Done?
    ensures var bid, n' := BidFor(env, m), EarAtListener(n, h, env, m.priority).node;
            if bid.Some? && bid.value != 0.0
            then n'.cells == n.cells + [L.Cell(n.slot, EntryFor(m, bid.value, L.Reserved, None))]
            else n'.cells == n.cells
  {
    hide L.Admit;
    hide L.MarkReserved;
    var r := Statement(m.id, m.priority, Requested(m.payload), m.listener);
    AdmitFirst(n.cells, n.slot, r, m.priority, env.offer);
    var bid := BidFor(env, m);
    if bid.Some? && bid.value != 0.0 {
      ReserveFirstEntry(n.cells, n.slot, r.(bid := bid.value));
    }
  }

  lemma FirstAtRelay(n: Node, h: nat, env: Env, source: Byte, m: Message)
    requires m.EAR? && h < |n.handlers| && !m.payload.Malformed? && n.handlers[h].source == Some(source)
    requires n.handlers[h].ptr == L.Detached(Statement(m.id, m.priority, Requested(m.payload), m.listener))
    requires Addressed(n.cells, n.slot) && NoEntry(n.cells, m.id.time)
    requires EarAtRelay(n, h, env, m).Done?
    ensures var bid, n' := BidFor(env, m), EarAtRelay(n, h, env, m).node;
            if bid.Some? && bid.value != 0.0
            then n'.cells == n.cells + [L.Cell(n.slot, EntryFor(m, bid.value, L.PreReserved,
                                               if env.conns(m.listener) == [] then None else Some(source)))]
            else n'.cells == n.cells
  {
    hide L.Admit;
    hide L.MarkPreReserved;
    hide Forward;
    var r := Statement(m.id, m.priority, Requested(m.payload), m.listener);
    AdmitFirst(n.cells, n.slot, r, m.priority, env.offer);
    var bid := BidFor(env, m);
    if bid.Some? && bid.value != 0.0 {
      var r' := r.(bid := bid.value);
      PreReserveFirstEntry(n.cells, n.slot, L.Detached(r'), r');
      var pre := r'.(state := L.PreReserved);
      var n' := Put(n.(cells := n.cells + [L.Cell(n.slot, pre)], slot := n.slot + 2), h, n.handlers[h].(ptr := L.Entry(n.slot)));
      ForwardFirst(n', h, env, m.listener, n.cells, n.slot, pre, source);
    }
  }

  lemma FirstEar(n: Node, h: nat, env: Env, source: Byte, m: Message)
    requires m.EAR? && JustMade(n, h, m, source) && Addressed(n.cells, n.slot) && NoEntry(n.cells, m.id.time)
    requires HandleEar(n, h, env, m).Done?
    ensures FirstEffect(n, env, source, m, HandleEar(n, h, env, m).node)
  {
    hide EarAtListener;
    hide EarAtRelay;
    hide Forward;
    hide L.Adopt;
    hide L.Adopted;
    NotAdopted(n.cells, m.id);
    if !m.payload.Malformed? {
      var hd := n.handlers[h].(state := Assessing, ptr := L.Detached(Statement(m.id, m.priority, Requested(m.payload), m.listener)));
      var n' := Put(Resumed(n, h), h, hd);
      if env.isMe(m.listener) {
        FirstAtListener(n', h, env, m);
      } else {
        FirstAtRelay(n', h, env, source, m);
      }
    }
  }

  /** With no key and no ledger entry of the session, an EAR or MAR that gets a nonzero bid adds
      exactly one entry, at the end: the request's own, RESERVED at the listener of an EAR and
      PRE_RESERVED otherwise. Any other leaves the ledger untouched. */
  lemma FirstRequest(n: Node, env: Env, source: Byte, m: Message)
    requires m.EAR? || m.MAR?
    requires Owned(n) && !Known(n, m.id.time) && NoEntry(n.cells, m.id.time) && Deliver(n, env, source, m).Done?
    ensures FirstEffect(n, env, source, m, Deliver(n, env, source, m).node)
  {
    hide HandleEar;
    hide HandleMar;
    hide Renamed;
    var h := |n.handlers|;
    var n' := Put(Created(n, m.id), h, NewHandler(m.id).(source := Some(source)));
    assert Routed(n, env, source, m) == Handed(n', h);
    if m.EAR? {
      FirstEar(n', h, env, source, m);
    } else {
      FirstMar(n', h, env, source, m);
    }
  }

  // ---- An auction at a node ----

  /** Handler h of session s waits for bids; whether its thread is already blocked decides which of
      two ways a bid takes. */
  ghost predicate Waiting(n: Node, s: Time, h: nat)
  {
    Serves(n, s, h) && n.handlers[h].state == AuctionWaiting
  }

  /** With 2 to 255 shortest connections, a reservation to speak for and no bids left over, going
      onwards opens an auction: nothing has arrived, as many bids are awaited as there are
      connections, and each connection gets exactly one MAR for the reservation. */
  lemma AuctionOpens(n: Node, h: nat, env: Env, listener: Byte)
    requires h < |n.handlers| && n.handlers[h].source.Some? && n.handlers[h].tally.bids == []
    requires L.Deref(n.cells, n.handlers[h].ptr).Some? && 2 <= |Kept(env.conns(listener))| <= 255
    ensures var o, conns, hd := Forward(n, h, env, listener), Kept(env.conns(listener)), n.handlers[h];
            var r := L.Deref(n.cells, hd.ptr).value;
            && o.Done? && |o.node.handlers| == |n.handlers| && o.node.store == n.store
            && o.node.handlers[h].uuid == hd.uuid && o.node.handlers[h].state == AuctionWaiting
            && o.node.handlers[h].tally == Tally(|conns|, 0, []) && |o.outs| == |conns|
            && forall i | 0 <= i < |conns| ::
                 o.outs[i] == Send(MAR(hd.uuid, r.priority, r.listener, Forwarded(r.caps)), conns[i].locator)
  {
    hide L.Deref;
    hide L.Store;
    hide Kept;
    hide Forwarded;
  }

  lemma BidCounts(n: Node, h: nat, m: Message, source: Byte)
    requires h < |n.handlers| && m.BID? && n.handlers[h].state == AuctionWaiting && n.handlers[h].source == Some(source)
    ensures var o := HandleBid(n, h, m);
            && o.Done? && o.outs == [] && o.node.store == n.store && |o.node.handlers| == |n.handlers|
            && o.node.handlers[h].state == AuctionWaiting
            && o.node.handlers[h].tally == Arrive(n.handlers[h].tally, Bid(m.value, source))
  {
  }

  /** Whichever way it takes, a bid is counted once, under the address it came from. */
  lemma BidArrives(n: Node, env: Env, source: Byte, m: Message, h: nat)
    requires Index(n) && m.BID? && m.id != SENTINEL && Waiting(n, m.id.time, h)
    requires Deliver(n, env, source, m).Done?
    ensures var o := Deliver(n, env, source, m);
            && Waiting(o.node, m.id.time, h) && o.outs == []
            && o.node.handlers[h].tally == Arrive(n.handlers[h].tally, Bid(m.value, source))
  {
    hide Locate;
    hide Index;
    hide HandleBid;
    LocateFinds(n, env, m, h);
    BidsAreNotDropped(n, env, m);
    var route := Routed(n, env, source, m);
    if route.Handed? {
      BidCounts(route.node, h, m, source);
      assert Serves(route.node, m.id.time, h);
    }
  }

  lemma BidsAreNotDropped(n: Node, env: Env, m: Message)
    requires m.BID?
    ensures !Locate(n, env, m).Nowhere?
  {
    hide Renamed;
  }

  /** The bids of session s among the events, in order. */
  function BidsAmong(trace: seq<(Env, Event)>, s: Time): seq<Bid>
  {
    if trace == [] then []
    else
      var e := trace[|trace| - 1].1;
      BidsAmong(trace[..|trace| - 1], s) +
      if e.Arrival? && e.msg.BID? && e.msg.id.time == s then [Bid(e.msg.value, e.source)] else []
  }

  /** Of session s, only bids arrive. */
  ghost predicate BiddingRun(n: Node, trace: seq<(Env, Event)>, s: Time)
  {
    forall i | 0 <= i < |trace| ::
      var before := Run(n, trace[..i]);
      before.Some? && Concerns(before.value, trace[i].1, s) ==> trace[i].1.Arrival? && trace[i].1.msg.BID?
  }

  lemma BiddingStep(n: Node, env: Env, e: Event, s: Time, h: nat)
    requires Invariant(n) && Sound(n, env, e) && Step(n, env, e).Done? && Waiting(n, s, h)
    requires Concerns(n, e, s) ==> e.Arrival? && e.msg.BID?
    ensures var n', t := Step(n, env, e).node, n.handlers[h].tally;
            && Waiting(n', s, h)
            && n'.handlers[h].tally == if e.Arrival? && e.msg.BID? && e.msg.id.time == s
                                       then Arrive(t, Bid(e.msg.value, e.source)) else t
  {
    hide Deliver;
    hide Index;
    hide Owned;
    hide Retired;
    hide Wake;
    hide Expire;
    hide Only;
    hide Arrive;
    ServesPlaced(n, s, h);
    if Concerns(n, e, s) {
      BidArrives(n, env, e.source, e.msg, h);
    } else {
      hide Step;
      hide Sound;
      var t := SomeSession(n, e);
      StepIsConfined(n, env, e, t);
      ConfinedSameFor(n, Step(n, env, e).node, t, s);
      SameForServes(n, Step(n, env, e).node, s, h);
    }
  }

  lemma {:induction false} TallyOf(n: Node, trace: seq<(Env, Event)>, s: Time, h: nat)
    requires Invariant(n) && SoundRun(n, trace) && Run(n, trace).Some? && BiddingRun(n, trace, s)
    requires Waiting(n, s, h)
    ensures Waiting(Run(n, trace).value, s, h)
    ensures Run(n, trace).value.handlers[h].tally == ArriveAll(n.handlers[h].tally, BidsAmong(trace, s))
  {
    hide Step;
    hide Sound;
    hide Invariant;
    hide Concerns;
    hide Arrive;
    if trace != [] {
      var front, last := trace[..|trace| - 1], trace[|trace| - 1];
      RunOn(n, trace);
      assert BiddingRun(n, front, s) by {
        assert forall i | 0 <= i < |front| :: front[..i] == trace[..i] && front[i] == trace[i];
      }
      TallyOf(n, front, s, h);
      InvariantOn(n, front);
      BiddingStep(Run(n, front).value, last.0, last.1, s, h);
      var bids := BidsAmong(front, s);
      var e := last.1;
      if e.Arrival? && e.msg.BID? && e.msg.id.time == s {
        assert BidsAmong(trace, s)[..|bids|] == bids;
      } else {
        assert BidsAmong(trace, s) == bids;
      }
    }
  }

  /** An auction opened (see AuctionOpens) for k neighbours that bid at most once each, among any events of other
      sessions: the bid set is exactly what arrived, no larger than the arrivals, which never exceed
      k, and all have arrived exactly at the k-th bid. */
  lemma {:induction false} AuctionAtNode(n: Node, trace: seq<(Env, Event)>, s: Time, h: nat, k: nat)
    requires Invariant(n) && SoundRun(n, trace) && Run(n, trace).Some? && BiddingRun(n, trace, s)
    requires Waiting(n, s, h) && 2 <= k <= 255 && n.handlers[h].tally == Tally(k, 0, [])
    requires |BidsAmong(trace, s)| <= k && OnePerBidder(BidsAmong(trace, s))
    ensures var n', bids := Run(n, trace).value, BidsAmong(trace, s);
            && Waiting(n', s, h)
            && var t := n'.handlers[h].tally;
               && |t.bids| == t.arriving == |bids| <= t.waiting == k && (forall b :: b in t.bids <==> b in bids)
               && (AllArrived(t) <==> |bids| == k)
  {
    TallyOf(n, trace, s, h);
    AuctionCompletes(k, BidsAmong(trace, s));
  }

  // ---- The end of an auction ----

  ghost predicate FreshDraws(table: map<Id, Id>, original: Id, entropies: seq<Entropy>)
  {
    && (forall i | 0 <= i < |entropies| :: Id(original.time, entropies[i]) !in table)
    && (forall i, j | 0 <= i < j < |entropies| :: entropies[i] != entropies[j])
  }

  function NewIds(original: Id, entropies: seq<Entropy>): (ids: set<Id>)
  {
    set e <- entropies :: Id(original.time, e)
  }

  /** The table gained just these ids, each for the original. */
  ghost predicate Gained(table: map<Id, Id>, table': map<Id, Id>, ids: set<Id>, original: Id)
  {
    table'.Keys == table.Keys + ids && forall id <- table' :: table'[id] == if id in table then table[id] else original
  }

  lemma GainedOne(table: map<Id, Id>, before: map<Id, Id>, ids: set<Id>, original: Id, id: Id)
    requires Gained(table, before, ids, original) && id !in table && id !in ids
    ensures id !in before && Gained(table, before[id := original], ids + {id}, original)
    ensures |before[id := original]| == |before| + 1
  {
  }

  lemma NewIdsNext(original: Id, front: seq<Entropy>, e: Entropy)
    ensures NewIds(original, front + [e]) == NewIds(original, front) + {Id(original.time, e)}
    ensures Id(original.time, e) in NewIds(original, front) ==> e in front
  {
  }

  lemma {:induction false} TranslationsAdded(table: map<Id, Id>, original: Id, entropies: seq<Entropy>)
    requires FreshDraws(table, original, entropies)
    ensures Gained(table, Translations(table, original, entropies), NewIds(original, entropies), original)
    ensures |Translations(table, original, entropies)| == |table| + |entropies|
  {
    hide Gained;
    hide NewIds;
    if entropies != [] {
      var k := |entropies| - 1;
      var front, e := entropies[..k], entropies[k];
      TranslationsAdded(table, original, front);
      assert entropies == front + [e] && e !in front;
      NewIdsNext(original, front, e);
      GainedOne(table, Translations(table, original, front), NewIds(original, front), original, Id(original.time, e));
    } else {
      NothingGained(table, original);
    }
  }

  lemma NothingGained(table: map<Id, Id>, original: Id)
    ensures Gained(table, table, NewIds(original, []), original)
  {
  }

  lemma TieSends(n: Node, h: nat, env: Env, draw: nat -> Entropy)
    requires h < |n.handlers| && n.handlers[h].tally.bids != []
    requires Wake(n, h, env, draw).Done? && |Winners(n.handlers[h].tally.bids)| > 1
    ensures var o, id, winners := Wake(n, h, env, draw), n.handlers[h].uuid, Winners(n.handlers[h].tally.bids);
            && |o.outs| == |winners| && o.node.table == Translations(n.table, id, Drawn(draw, |winners|))
            && |o.node.handlers| == |n.handlers| && o.node.handlers[h].state == PreReserved
            && forall i | 0 <= i < |winners| ::
                 && o.outs[i].Send? && o.outs[i].msg.EAR? && o.outs[i].msg.id == Id(id.time, draw(i))
                 && o.outs[i].msg.payload == Empty && Some(o.outs[i].locator) == Direct(winners[i], env)
  {
    hide L.Deref;
    hide Winners;
    hide Translations;
  }

  /** Several winners: each of the highest bidders gets exactly one EAR, under an id of its own in the
      session's time stamp, and the table gains exactly one translation back for each. */
  lemma TieIsSplit(n: Node, h: nat, env: Env, draw: nat -> Entropy)
    requires h < |n.handlers| && n.handlers[h].tally.bids != [] && Ascending(n.handlers[h].tally.bids)
    requires Wake(n, h, env, draw).Done? && |Winners(n.handlers[h].tally.bids)| > 1
    requires FreshDraws(n.table, n.handlers[h].uuid, Drawn(draw, |Winners(n.handlers[h].tally.bids)|))
    ensures var o, id, winners := Wake(n, h, env, draw), n.handlers[h].uuid, Winners(n.handlers[h].tally.bids);
            && |o.outs| == |winners| && |o.node.table| == |n.table| + |winners|
            && |o.node.handlers| == |n.handlers| && o.node.handlers[h].state == PreReserved
            && Gained(n.table, o.node.table, NewIds(id, Drawn(draw, |winners|)), id)
            && (forall i | 0 <= i < |winners| ::
                  && o.outs[i].Send? && o.outs[i].msg.EAR? && o.outs[i].msg.id == Id(id.time, draw(i))
                  && o.outs[i].msg.payload == Empty && Some(o.outs[i].locator) == Direct(winners[i], env))
  {
    hide Wake;
    hide Winners;
    hide Translations;
    hide Gained;
    hide NewIds;
    hide FreshDraws;
    TieSends(n, h, env, draw);
    var winners := Winners(n.handlers[h].tally.bids);
    TranslationsAdded(n.table, n.handlers[h].uuid, Drawn(draw, |winners|));
  }
}
