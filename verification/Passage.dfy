/** The passage of a request that everybody accepts: what each node on the way does with it, with its
    auctions and with its acceptance. */
module Passage {
  import opened Basics
  import opened Identifiers
  import opened Capabilities
  import opened Routes
  import opened Auction
  import opened Protocol
  import opened Handlers
  import opened Processes
  import opened Sessions
  import opened Isolation
  import opened Requests
  import opened Acceptance
  import L = Ledger

  /** A request for requirements that this node bids for. */
  ghost predicate Welcome(env: Env, m: Message)
  {
    && m.EAR? && m.payload.Carries? && Consecutive(m.payload.caps)
    && env.offer(m.payload.caps, m.priority).Some? && env.offer(m.payload.caps, m.priority).value != 0.0
  }

  ghost predicate Unheard(n: Node, s: Time)
  {
    Owned(n) && !Known(n, s) && NoEntry(n.cells, s)
  }

  /** The node with a handler for the message, in the given state, and its entry. */
  function With(n: Node, m: Message, source: Byte, state: HandlerState, entry: L.Reservation, slot: nat): Node
  {
    n.(store := n.store[m.id := |n.handlers|],
       handlers := n.handlers + [Handler(m.id, state, Tally(0, 0, []), L.Entry(n.slot), Some(source), false)],
       cells := n.cells + [L.Cell(n.slot, entry)], slot := slot)
  }

  lemma PutLast(n: Node, id: Id, a: Handler)
    ensures Put(Created(n, id), |n.handlers|, a)
         == n.(store := n.store[id := |n.handlers|], handlers := n.handlers + [a])
    ensures forall b: Handler ::
              Put(Put(Created(n, id), |n.handlers|, a), |n.handlers|, b)
              == n.(store := n.store[id := |n.handlers|], handlers := n.handlers + [b])
  {
  }

  /** The handler's reservation is entry k of the ledger. */
  ghost predicate Points(n: Node, h: nat, k: nat)
  {
    h < |n.handlers| && k < |n.cells| && n.handlers[h].ptr == L.Entry(n.cells[k].addr) && L.Distinct(n.cells)
  }

  /** The ledger with another reservation at entry k. */
  function Rewritten(cells: Cells, k: nat, r: L.Reservation): (out: Cells)
    requires k < |cells|
    ensures |out| == |cells| && out[k].addr == cells[k].addr && out[k].res == r
    ensures forall i | 0 <= i < |cells| && i != k :: out[i] == cells[i]
  {
    cells[k := cells[k].(res := r)]
  }

  lemma ForwardsAlone(n: Node, h: nat, env: Env, listener: Byte, k: nat, source: Byte)
    requires Points(n, h, k) && n.handlers[h].source == Some(source) && |Kept(env.conns(listener))| == 1
    ensures var hd, conns, r := n.handlers[h], Kept(env.conns(listener)), n.cells[k].res;
            Forward(n, h, env, listener)
            == Done(Put(n.(cells := Rewritten(n.cells, k, r.(past := Some(source)))), h, hd.(state := PreReserved)),
                    [Send(EAR(hd.uuid, r.priority, r.listener, Forwarded(r.caps)), conns[0].locator)])
  {
    hide Kept;
    L.PositionIs(n.cells, n.cells[k].addr, k);
  }

  lemma ForwardsToMany(n: Node, h: nat, env: Env, listener: Byte, k: nat, source: Byte)
    requires Points(n, h, k) && n.handlers[h].source == Some(source) && 2 <= |Kept(env.conns(listener))| <= 255
    ensures var hd, conns, r := n.handlers[h], Kept(env.conns(listener)), n.cells[k].res;
            Forward(n, h, env, listener)
            == Done(Put(n.(cells := Rewritten(n.cells, k, r.(past := Some(source)))), h,
                        hd.(state := AuctionWaiting, tally := hd.tally.(waiting := |conns|, arriving := 0))),
                    SendEach(MAR(hd.uuid, r.priority, r.listener, Forwarded(r.caps)), conns))
  {
    hide Kept;
    hide SendEach;
    L.PositionIs(n.cells, n.cells[k].addr, k);
  }

  lemma PointsToLast(n: Node, h: nat, cells: Cells, slot: nat, r: L.Reservation)
    requires h < |n.handlers| && n.handlers[h].ptr == L.Entry(slot)
    requires n.cells == cells + [L.Cell(slot, r)] && Addressed(cells, slot)
    ensures Points(n, h, |cells|)
  {
  }

  /** One hop: with a single shortest connection the request goes on exactly as it came, and the node
      keeps a pre-reserved entry that knows the way back. */
  lemma Hop(n: Node, env: Env, source: Byte, m: Message)
    requires Welcome(env, m) && Unheard(n, m.id.time) && !env.isMe(m.listener) && |Kept(env.conns(m.listener))| == 1
    ensures Deliver(n, env, source, m)
         == Done(With(n, m, source, PreReserved,
                      EntryFor(m, BidFor(env, m).value, L.PreReserved, Some(source)), n.slot + 2),
                 [Send(m, Kept(env.conns(m.listener))[0].locator)])
  {
    hide Renamed;
    hide Kept;
    hide L.Adopt;
    hide L.Adopted;
    hide L.Admit;
    hide L.MarkPreReserved;
    hide Forward;
    hide NoEntry;
    hide Own;
    var h, id := |n.handlers|, m.id;
    var hd := NewHandler(id).(source := Some(source));
    PutLast(n, id, hd);
    var n0 := Put(Created(n, id), h, hd);
    assert Routed(n, env, source, m) == Handed(n0, h);
    NotAdopted(n.cells, id);
    var r := Statement(id, m.priority, m.payload.caps, m.listener);
    AdmitFirst(n.cells, n.slot, r, m.priority, env.offer);
    var r' := r.(bid := BidFor(env, m).value);
    PreReserveFirstEntry(n.cells, n.slot, L.Detached(r'), r');
    var pre := r'.(state := L.PreReserved);
    var n1 := n.(store := n.store[id := h], handlers := n.handlers + [hd.(state := Assessing, ptr := L.Detached(r))]);
    assert Put(Resumed(n0, h), h, hd.(state := Assessing, ptr := L.Detached(r))) == n1;
    assert HandleEar(n0, h, env, m) == EarAtRelay(n1, h, env, m);
    var n' := n.(store := n.store[id := h], handlers := n.handlers + [hd.(state := Assessing, ptr := L.Entry(n.slot))],
                 cells := n.cells + [L.Cell(n.slot, pre)], slot := n.slot + 2);
    assert Put(n1.(cells := n'.cells, slot := n'.slot), h, n'.handlers[h]) == n';
    assert EarAtRelay(n1, h, env, m) == Forward(n', h, env, m.listener);
    PointsToLast(n', h, n.cells, n.slot, pre);
    ForwardsAlone(n', h, env, m.listener, |n.cells|, source);
    assert Rewritten(n'.cells, |n.cells|, pre.(past := Some(source))) == n.cells + [L.Cell(n.slot, pre.(past := Some(source)))];
  }

  /** The end of the way: the listener keeps a reserved entry and answers with an ACC. */
  lemma LastHop(n: Node, env: Env, source: Byte, m: Message)
    requires Welcome(env, m) && Unheard(n, m.id.time) && env.isMe(m.listener) && Kept(env.conns(source)) != []
    ensures Deliver(n, env, source, m)
         == Done(With(n, m, source, Reserved,
                      EntryFor(m, BidFor(env, m).value, L.Reserved, None), n.slot + 1),
                 [Send(ACC(m.id), Kept(env.conns(source))[0].locator)])
  {
    hide Renamed;
    hide Kept;
    hide L.Adopt;
    hide L.Adopted;
    hide L.Admit;
    hide L.MarkReserved;
    hide NoEntry;
    hide Own;
    var h, id := |n.handlers|, m.id;
    var hd := NewHandler(id).(source := Some(source));
    PutLast(n, id, hd);
    var n0 := Put(Created(n, id), h, hd);
    assert Routed(n, env, source, m) == Handed(n0, h);
    NotAdopted(n.cells, id);
    var r := Statement(id, m.priority, m.payload.caps, m.listener);
    AdmitFirst(n.cells, n.slot, r, m.priority, env.offer);
    var r' := r.(bid := BidFor(env, m).value);
    ReserveFirstEntry(n.cells, n.slot, r');
    var hd1 := hd.(state := Assessing, ptr := L.Detached(r));
    var n1 := n.(store := n.store[id := h], handlers := n.handlers + [hd1]);
    assert Put(Resumed(n0, h), h, hd1) == n1;
    assert HandleEar(n0, h, env, m) == EarAtListener(n1, h, env, m.priority);
    var n2 := n1.(cells := n.cells + [L.Cell(n.slot, r')], slot := n.slot + 1);
    assert EarAtListener(n1, h, env, m.priority) == Accept(n2, h, env, n.slot);
    var n3 := With(n, m, source, Reserved, L.Reserve(r'), n.slot + 1);
    assert Put(n2.(cells := n3.cells), h, n3.handlers[h]) == n3;
  }

  lemma SoundArrival(n: Node, env: Env, source: Byte, m: Message)
    requires m.id != SENTINEL && !m.ACC? && !m.REF?
    ensures Sound(n, env, Arrival(source, m))
  {
    hide Routed;
  }

  // ---- A session with one key and one entry ----

  /** Session of id at a node: its one key leads to handler h, and its one entry, which the handler
      holds, is entry k of the ledger. */
  ghost predicate Sole(n: Node, h: nat, id: Id, k: nat)
  {
    && Points(n, h, k) && n.handlers[h].uuid == id && id in n.store && n.store[id] == h
    && (forall j <- n.store :: j.time == id.time ==> j == id)
    && TimeOf(n.cells[k]) == id.time && (forall i | 0 <= i < |n.cells| && i != k :: TimeOf(n.cells[i]) != id.time)
  }

  lemma WithIsSole(n: Node, m: Message, source: Byte, state: HandlerState, entry: L.Reservation, slot: nat)
    requires Unheard(n, m.id.time) && entry.uuid == m.id
    ensures Sole(With(n, m, source, state, entry, slot), |n.handlers|, m.id, |n.cells|)
  {
    hide Own;
  }

  /** The id under which the node finds its handler: an origin keeps its own and translates, any other
      node renames its key to the id of the message. */
  ghost function KeyFor(n: Node, id: Id, m: Message): Option<Id>
  {
    if IsOrigin(n, id.time) then
      if (if m.id in n.table then n.table[m.id] else m.id) == id then Some(id) else None
    else Some(m.id)
  }

  /** The node with the session's key and handler under another id. */
  function Rekeying(n: Node, h: nat, id: Id, id': Id): Node
    requires h < |n.handlers|
  {
    Put(n.(store := (n.store - {id})[id' := h]), h, n.handlers[h].(uuid := id'))
  }

  lemma RekeyingSame(n: Node, h: nat, id: Id, k: nat)
    requires Sole(n, h, id, k)
    ensures Rekeying(n, h, id, id) == n
  {
    assert (n.store - {id})[id := h] == n.store;
  }

  lemma RekeyingIsSole(n: Node, h: nat, id: Id, k: nat, id': Id)
    requires Sole(n, h, id, k) && id'.time == id.time
    ensures Sole(Rekeying(n, h, id, id'), h, id', k)
    ensures id != id' ==> Renamed(n, id') == (if id == SENTINEL then Some(n) else Some(Rekeying(n, h, id, id')))
    ensures Renamed(n, id) == Some(n)
  {
    assert forall j :: !Elsewhere(n, id, j);
    if id != id' {
      assert Elsewhere(n, id', id);
      assert forall j :: Elsewhere(n, id', j) ==> j == id;
      assert n.store[id' := h] - {id} == (n.store - {id})[id' := h];
    }
  }

  /** A message for the session that is no new request, and no EAR to its listener under another id,
      finds the handler, under the key that is due. */
  lemma SoleFound(n: Node, h: nat, env: Env, m: Message, id: Id, k: nat)
    requires Sole(n, h, id, k) && id != SENTINEL && m.id.time == id.time && !IsRequest(m)
    requires m.EAR? && env.isMe(m.listener) ==> m.id == id
    requires KeyFor(n, id, m).Some?
    ensures Locate(n, env, m) == Found(Rekeying(n, h, id, KeyFor(n, id, m).value), h)
  {
    var key := KeyFor(n, id, m).value;
    assert Known(n, m.id.time);
    RekeyingIsSole(n, h, id, k, key);
    RekeyingSame(n, h, id, k);
    if key != id {
      RekeyingIsSole(Rekeying(n, h, id, key), h, key, k, key);
    }
    hide Renamed;
    hide Known;
  }

  lemma SoleRouted(n: Node, h: nat, env: Env, source: Byte, m: Message, id: Id, k: nat)
    requires Sole(n, h, id, k) && id != SENTINEL && m.id.time == id.time && !IsRequest(m)
    requires m.EAR? && env.isMe(m.listener) ==> m.id == id
    requires KeyFor(n, id, m).Some? && !n.handlers[h].running && Listens(n.handlers[h].state)
    ensures var key := KeyFor(n, id, m).value;
            var n' := Rekeying(n, h, id, key);
            var n'' := Put(n', h, Marked(n'.handlers[h], m, source));
            Routed(n, env, source, m) == Handed(n'', h) && Sole(n'', h, key, k)
  {
    hide Locate;
    SoleFound(n, h, env, m, id, k);
    RekeyingIsSole(n, h, id, k, KeyFor(n, id, m).value);
  }

  /** Looking up the reservation renames the entry and finds it. */
  lemma {:induction false} SoleResumed(n: Node, h: nat, id: Id, k: nat)
    requires Sole(n, h, id, k)
    ensures var r := n.cells[k].res.(uuid := id);
            var n' := n.(cells := Rewritten(n.cells, k, r));
            && Resumed(n, h) == n' && Sole(n', h, id, k) && Reservation(n, h) == Some(r)
            && L.Deref(n'.cells, n'.handlers[h].ptr) == Some(r)
  {
    FamilyPositionIs(n.cells, id.time, k);
    var cells := Rewritten(n.cells, k, n.cells[k].res.(uuid := id));
    assert forall i | 0 <= i < |cells| :: cells[i].addr == n.cells[i].addr;
    L.PositionIs(cells, n.cells[k].addr, k);
    assert Put(n, h, n.handlers[h]) == n;
  }

  // ---- Auctions ----

  /** A neighbour that is asked for a bid keeps a pre-reserved entry and answers with its bid. */
  lemma Bids(n: Node, env: Env, source: Byte, m: Message)
    requires m.MAR? && m.payload.Carries? && BidFor(env, m).Some? && BidFor(env, m).value != 0.0
    requires Unheard(n, m.id.time) && env.conns(source) != []
    ensures Deliver(n, env, source, m)
         == Done(With(n, m, source, PreReserved,
                      EntryFor(m, BidFor(env, m).value, L.PreReserved, None), n.slot + 2),
                 [Send(BID(m.id, BidFor(env, m).value), env.conns(source)[0].locator)])
  {
    hide Renamed;
    hide L.Adopt;
    hide L.Adopted;
    hide L.Admit;
    hide L.MarkPreReserved;
    hide NoEntry;
    hide Own;
    var h, id := |n.handlers|, m.id;
    var hd := NewHandler(id).(source := Some(source));
    PutLast(n, id, hd);
    var n0 := Put(Created(n, id), h, hd);
    assert Routed(n, env, source, m) == Handed(n0, h);
    NotAdopted(n.cells, id);
    var r := Statement(id, m.priority, m.payload.caps, m.listener);
    AdmitFirst(n.cells, n.slot, r, m.priority, env.offer);
    var r' := r.(bid := BidFor(env, m).value);
    PreReserveFirstEntry(n.cells, n.slot, L.Entry(n.slot), r');
    assert Resumed(n0, h) == n0;
    assert HandleMar(n0, h, env, m) == AnswerMar(n0, h, env, m);
    var n1 := With(n, m, source, PreReserved, r'.(state := L.PreReserved), n.slot + 2);
    assert Put(n0.(cells := n1.cells, slot := n1.slot), h, n1.handlers[h]) == n1;
  }

  /** With several shortest connections the request goes on as a MAR to each of them. */
  lemma Asks(n: Node, env: Env, source: Byte, m: Message)
    requires Welcome(env, m) && Unheard(n, m.id.time) && !env.isMe(m.listener)
    requires 2 <= |Kept(env.conns(m.listener))| <= 255
    ensures var conns, entry := Kept(env.conns(m.listener)), EntryFor(m, BidFor(env, m).value, L.PreReserved, Some(source));
            var n', h := With(n, m, source, AuctionWaiting, entry, n.slot + 2), |n.handlers|;
            Deliver(n, env, source, m)
            == Done(Put(n', h, n'.handlers[h].(tally := Tally(|conns|, 0, []))),
                    SendEach(MAR(m.id, m.priority, m.listener, m.payload), conns))
  {
    hide Renamed;
    hide Kept;
    hide L.Adopt;
    hide L.Adopted;
    hide L.Admit;
    hide L.MarkPreReserved;
    hide Forward;
    hide NoEntry;
    hide Own;
    var h, id := |n.handlers|, m.id;
    var hd := NewHandler(id).(source := Some(source));
    PutLast(n, id, hd);
    var n0 := Put(Created(n, id), h, hd);
    assert Routed(n, env, source, m) == Handed(n0, h);
    NotAdopted(n.cells, id);
    var r := Statement(id, m.priority, m.payload.caps, m.listener);
    AdmitFirst(n.cells, n.slot, r, m.priority, env.offer);
    var r' := r.(bid := BidFor(env, m).value);
    PreReserveFirstEntry(n.cells, n.slot, L.Detached(r'), r');
    var pre := r'.(state := L.PreReserved);
    var n1 := n.(store := n.store[id := h], handlers := n.handlers + [hd.(state := Assessing, ptr := L.Detached(r))]);
    assert Put(Resumed(n0, h), h, hd.(state := Assessing, ptr := L.Detached(r))) == n1;
    assert HandleEar(n0, h, env, m) == EarAtRelay(n1, h, env, m);
    var n' := n.(store := n.store[id := h], handlers := n.handlers + [hd.(state := Assessing, ptr := L.Entry(n.slot))],
                 cells := n.cells + [L.Cell(n.slot, pre)], slot := n.slot + 2);
    assert Put(n1.(cells := n'.cells, slot := n'.slot), h, n'.handlers[h]) == n';
    assert EarAtRelay(n1, h, env, m) == Forward(n', h, env, m.listener);
    PointsToLast(n', h, n.cells, n.slot, pre);
    ForwardsToMany(n', h, env, m.listener, |n.cells|, source);
    assert Rewritten(n'.cells, |n.cells|, pre.(past := Some(source))) == n.cells + [L.Cell(n.slot, pre.(past := Some(source)))];
  }

  /** A bid is counted, and the thread blocks with the first one. */
  lemma TakesBid(n: Node, h: nat, env: Env, source: Byte, id: Id, value: real, k: nat)
    requires Sole(n, h, id, k) && id != SENTINEL && id !in n.table && n.cells[k].res.uuid == id
    requires n.handlers[h].state == AuctionWaiting
    ensures var hd := n.handlers[h];
            var source' := if hd.running then hd.source else Some(source);
            var n' := Put(n, h, hd.(tally := Arrive(hd.tally, Bid(value, source)), running := true, source := source'));
            Deliver(n, env, source, BID(id, value)) == Done(n', []) && Sole(n', h, id, k)
  {
    hide Locate;
    hide Resumed;
    var m := BID(id, value);
    RekeyingSame(n, h, id, k);
    if n.handlers[h].running {
      SoleFound(n, h, env, m, id, k);
    } else {
      var n' := Put(n, h, Marked(n.handlers[h], m, source));
      SoleRouted(n, h, env, source, m, id, k);
      SoleResumed(n', h, id, k);
      assert Rewritten(n.cells, k, n.cells[k].res.(uuid := id)) == n.cells;
    }
  }

  /** The only winner is sent a request that says who it is for, and leaves the requirements out. */
  lemma Chooses(n: Node, h: nat, env: Env, draw: nat -> Entropy, id: Id, k: nat, winner: Byte)
    requires Sole(n, h, id, k) && n.handlers[h].tally.bids != []
    requires Winners(n.handlers[h].tally.bids) == [winner] && env.conns(winner) != []
    ensures var n', r := Put(n, h, n.handlers[h].(running := false, state := PreReserved)), n.cells[k].res;
            && Wake(n, h, env, draw)
               == Done(n', [Send(EAR(id, r.priority, r.listener, Empty), env.conns(winner)[0].locator)])
            && Sole(n', h, id, k)
  {
    L.PositionIs(n.cells, n.cells[k].addr, k);
  }

  /** Several winners are sent such a request each, under an id of its own. */
  lemma {:induction false} ChoosesAll(n: Node, h: nat, env: Env, draw: nat -> Entropy, id: Id, k: nat)
    requires Sole(n, h, id, k) && n.handlers[h].tally.bids != []
    requires var winners := Winners(n.handlers[h].tally.bids);
             |winners| > 1 && forall w <- winners :: env.conns(w) != []
    ensures var winners, r := Winners(n.handlers[h].tally.bids), n.cells[k].res;
            var table := Translations(n.table, id, Drawn(draw, |winners|));
            var o := Wake(n, h, env, draw);
            && o.Done? && o.node == Put(n.(table := table), h, n.handlers[h].(running := false, state := PreReserved))
            && |o.outs| == |winners| && Sole(o.node, h, id, k)
            && forall i | 0 <= i < |winners| ::
                 o.outs[i] == Send(EAR(Id(id.time, draw(i)), r.priority, r.listener, Empty), env.conns(winners[i])[0].locator)
  {
    hide Winners;
    hide Translations;
    L.PositionIs(n.cells, n.cells[k].addr, k);
  }

  /** The winner has the requirements in its ledger, and sends them on, under the id it was chosen by:
      its own, or one that a tie was split with. */
  lemma SendsOn(n: Node, h: nat, env: Env, source: Byte, m: Message, id: Id, k: nat)
    requires Sole(n, h, id, k) && id != SENTINEL && m.id.time == id.time && KeyFor(n, id, m) == Some(m.id)
    requires n.handlers[h].state == PreReserved && !n.handlers[h].running
    requires m.EAR? && m.payload == Empty && !env.isMe(m.listener) && |Kept(env.conns(m.listener))| == 1
    ensures var r, conns, n' := n.cells[k].res, Kept(env.conns(m.listener)), Rekeying(n, h, id, m.id);
            var n'' := Put(n'.(cells := Rewritten(n.cells, k, r.(uuid := m.id, past := Some(source)))), h,
                           n'.handlers[h].(source := Some(source)));
            && Deliver(n, env, source, m)
               == Done(n'', [Send(EAR(m.id, r.priority, r.listener, Forwarded(r.caps)), conns[0].locator)])
            && Sole(n'', h, m.id, k)
  {
    hide Routed;
    hide Kept;
    hide HandleEar;
    SoleRouted(n, h, env, source, m, id, k);
    var n' := Rekeying(n, h, id, m.id);
    var n0 := Put(n', h, n'.handlers[h].(source := Some(source)));
    EarSendsOn(n0, h, env, m, k, source);
  }

  lemma EarSendsOn(n: Node, h: nat, env: Env, m: Message, k: nat, source: Byte)
    requires Sole(n, h, m.id, k) && n.handlers[h].state == PreReserved && n.handlers[h].source == Some(source)
    requires m.EAR? && !env.isMe(m.listener) && |Kept(env.conns(m.listener))| == 1
    ensures var r, conns := n.cells[k].res, Kept(env.conns(m.listener));
            var n' := n.(cells := Rewritten(n.cells, k, r.(uuid := m.id, past := Some(source))));
            && HandleEar(n, h, env, m)
               == Done(n', [Send(EAR(m.id, r.priority, r.listener, Forwarded(r.caps)), conns[0].locator)])
            && Sole(n', h, m.id, k)
  {
    hide Kept;
    hide Resumed;
    hide Forward;
    SoleResumed(n, h, m.id, k);
    var n1 := Resumed(n, h);
    LastOfSole(n1.cells, m.id, k, L.Entry(n1.cells[k].addr));
    assert Put(n1, h, n1.handlers[h]) == n1 && HasBid(n1, m.id);
    assert HandleEar(n, h, env, m) == Forward(n1, h, env, m.listener);
    ForwardsAlone(n1, h, env, m.listener, k, source);
    assert Rewritten(n1.cells, k, n1.cells[k].res.(past := Some(source)))
        == Rewritten(n.cells, k, n.cells[k].res.(uuid := m.id, past := Some(source)));
  }

  lemma {:induction false} LastOfSole(cells: Cells, id: Id, k: nat, p: Pointer)
    requires k < |cells| && cells[k].res.uuid == id && forall i | 0 <= i < |cells| && i != k :: TimeOf(cells[i]) != id.time
    ensures L.LastOf(cells, id, p) == L.Entry(cells[k].addr)
  {
    if k < |cells| - 1 {
      LastOfSole(cells[..|cells| - 1], id, k, p);
    }
  }
}
