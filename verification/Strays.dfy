/** Messages that nobody waits for, and where the process does not survive a message: an assertion
    fails, an exception is not caught, or a null pointer is followed. */
module Strays {
  import opened Basics
  import opened Identifiers
  import opened Capabilities
  import opened Routes
  import opened Auction
  import opened Protocol
  import opened Handlers
  import opened Processes
  import opened Sessions
  import opened Isolation
  import opened Acceptance
  import opened Requests
  import opened Passage
  import opened Outcomes
  import L = Ledger

  // ---- Messages for a session that the node has not heard of ----

  /** A bid, and a release at its listener, are given a handler that closes at once; the release is
      answered with one REF along the first connection to where it came from. */
  lemma {:induction false} UnheardAnswered(n: Node, env: Env, source: Byte, m: Message)
    requires Unheard(n, m.id.time)
    requires m.BID? || (m.REP? && env.isMe(m.listener) && env.conns(source) != [])
    ensures var o := Deliver(n, env, source, m);
            && o.Done? && Turned(n, o.node, m)
            && o.outs == (if m.BID? then [] else [Send(REF(m.id), env.conns(source)[0].locator)])
  {
    hide Routed;
    hide Resumed;
    hide NoEntry;
    hide Own;
    var n0 := MadeFor(n, env, source, m);
  }

  /** Nobody survives an acceptance of such a session, or a release on the way: there is no reservation
      to mark or to follow. */
  lemma {:induction false} UnheardKills(n: Node, env: Env, source: Byte, m: Message)
    requires Unheard(n, m.id.time) && (m.ACC? || (m.REP? && !env.isMe(m.listener)))
    ensures Deliver(n, env, source, m) == Crash
  {
    hide Routed;
    hide Resumed;
    hide NoEntry;
    hide Own;
    var n0 := MadeFor(n, env, source, m);
  }

  /** A refusal of such a session is reported by its origin, which is none from then on, and kills any
      other node, which has no source to pass it to. */
  lemma {:induction false} UnheardRefused(n: Node, env: Env, source: Byte, id: Id)
    requires Unheard(n, id.time) && id !in n.table
    ensures var o := Deliver(n, env, source, REF(id));
            if id !in n.origins then o == Crash
            else && o.Done? && o.outs == [Report(false, id)] && o.node.origins == n.origins - {id}
                 && Turned(n, o.node.(origins := n.origins), REF(id))
  {
    hide Renamed;
    hide Resumed;
    hide NoEntry;
    hide Own;
    PutLast(n, id, NewHandler(id));
    var n0 := Put(Created(n, id), |n.handlers|, NewHandler(id));
    assert Routed(n, env, source, REF(id)) == Handed(n0, |n.handlers|);
    MadeAlone(n, id);
  }

  lemma {:induction false} MadeAlone(n: Node, id: Id)
    requires NoEntry(n.cells, id.time)
    ensures var n0 := Put(Created(n, id), |n.handlers|, NewHandler(id)); Resumed(n0, |n.handlers|) == n0
  {
    PutLast(n, id, NewHandler(id));
    NotAdopted(n.cells, id);
  }

  // ---- Messages for a handler that is busy, or under an id that nobody has ----

  /** While a thread is blocked on bids, anything but a bid for its auction is lost; the session is
      known by the id of the message then, and nothing else has changed. */
  lemma {:induction false} BlockedIsDeaf(n: Node, h: nat, env: Env, source: Byte, m: Message, id: Id, k: nat)
    requires Sole(n, h, id, k) && id != SENTINEL && m.id.time == id.time && !IsRequest(m)
    requires m.EAR? && env.isMe(m.listener) ==> m.id == id
    requires KeyFor(n, id, m).Some? && n.handlers[h].running && !(m.BID? && n.handlers[h].state == AuctionWaiting)
    ensures Deliver(n, env, source, m) == Done(Rekeying(n, h, id, KeyFor(n, id, m).value), [])
  {
    hide Locate;
    SoleFound(n, h, env, m, id, k);
  }

  /** An origin looks for its session under its own id; a message under an id that it neither has nor
      translates kills it. */
  lemma LostAtOrigin(n: Node, h: nat, env: Env, source: Byte, m: Message, id: Id, k: nat)
    requires Sole(n, h, id, k) && IsOrigin(n, id.time) && m.id.time == id.time && !IsRequest(m)
    requires KeyFor(n, id, m) == None && !(m.EAR? && env.isMe(m.listener))
    requires m.id in n.table ==> n.table[m.id].time == id.time
    ensures Deliver(n, env, source, m) == Crash
  {
    assert Known(n, m.id.time);
  }

  /** A request without requirements that comes again when its session is decided is new to the
      handler: without a bid for it, it closes and sends one REF along the first shortest connection
      to where that came from. The entry stays as it is. */
  lemma {:induction false} RefusesAgain(n: Node, h: nat, env: Env, source: Byte, m: Message, id: Id, k: nat)
    requires Open(n, h, id, k) && m.EAR? && m.payload == Empty && m.id.time == id.time && KeyFor(n, id, m) == Some(m.id)
    requires n.handlers[h].state != PreReserved && Unwelcome(env, m) && Kept(env.conns(source)) != []
    requires env.isMe(m.listener) ==> m.id == id
    ensures var o, n' := Deliver(n, env, source, m), Rekeying(n, h, id, m.id);
            && o.Done? && h < |o.node.handlers|
            && o.node == Put(n'.(cells := Rewritten(n.cells, k, n.cells[k].res.(uuid := m.id))), h,
                             n'.handlers[h].(state := Closed, source := Some(source), ptr := o.node.handlers[h].ptr))
            && (if env.isMe(m.listener) then o.node.handlers[h].ptr.Detached? else o.node.handlers[h].ptr == L.Null)
            && o.outs == [Send(REF(m.id), Kept(env.conns(source))[0].locator)]
  {
    hide Routed;
    hide HandleEar;
    hide Kept;
    SoleRouted(n, h, env, source, m, id, k);
    var n' := Rekeying(n, h, id, m.id);
    EarRefusesAgain(Put(n', h, n'.handlers[h].(source := Some(source))), h, env, m, k, source);
  }

  lemma {:induction false} EarRefusesAgain(n: Node, h: nat, env: Env, m: Message, k: nat, source: Byte)
    requires Sole(n, h, m.id, k) && m.EAR? && m.payload == Empty && n.handlers[h].source == Some(source)
    requires n.handlers[h].state != PreReserved && Unwelcome(env, m) && Kept(env.conns(source)) != []
    ensures var o := HandleEar(n, h, env, m);
            && o.Done? && h < |o.node.handlers|
            && o.node == Put(n.(cells := Rewritten(n.cells, k, n.cells[k].res.(uuid := m.id))), h,
                             n.handlers[h].(state := Closed, ptr := o.node.handlers[h].ptr))
            && (if env.isMe(m.listener) then o.node.handlers[h].ptr.Detached? else o.node.handlers[h].ptr == L.Null)
            && o.outs == [Send(REF(m.id), Kept(env.conns(source))[0].locator)]
  {
    hide Kept;
    hide Resumed;
    hide L.Admit;
    hide Forward;
    SoleResumed(n, h, m.id, k);
    var n1 := Resumed(n, h);
    var r := Statement(m.id, m.priority, NO_CAPS, m.listener);
    AdmitFirst(n1.cells, n1.slot, r, m.priority, env.offer);
    AdmittedDetached(n1.cells, n1.slot, r, m.priority, env.offer);
    assert !HasBid(Put(n1, h, n1.handlers[h].(state := Assessing, ptr := L.Detached(r))), m.id);
  }

  lemma AdmittedDetached(cells: Cells, slot: nat, r: L.Reservation, priority: Byte, offer: L.Offer)
    ensures var a := L.Admit(cells, L.Detached(r), priority, offer, slot);
            (a.Refused? || a.Accepted?) && a.ptr.Detached?
  {
  }

  /** A listener that has bid before and would not bid now turns the winner's request down: it closes
      and sends one REF. Its entry stays, with bid 0 if that is what the node would bid now. */
  lemma {:induction false} RefusesWinner(n: Node, h: nat, env: Env, back: Byte, m: Message, k: nat)
    requires Open(n, h, m.id, k) && m.id !in n.table && n.cells[k].res.uuid == m.id
    requires n.handlers[h].state == PreReserved
    requires m.EAR? && m.payload == Empty && env.isMe(m.listener) && Kept(env.conns(back)) != []
    requires var bid := env.offer(n.cells[k].res.caps, m.priority); bid.Some? ==> bid.value == 0.0
    ensures var r := n.cells[k].res;
            var r' := if env.offer(r.caps, m.priority).Some? then r.(priority := m.priority, bid := 0.0) else r;
            Deliver(n, env, back, m)
            == Done(Put(n.(cells := Rewritten(n.cells, k, r')), h, n.handlers[h].(source := Some(back), state := Closed)),
                    [Send(REF(m.id), Kept(env.conns(back))[0].locator)])
  {
    hide Routed;
    hide Kept;
    hide HandleEar;
    SoleRouted(n, h, env, back, m, m.id, k);
    RekeyingSame(n, h, m.id, k);
    EarRefusesWinner(Put(n, h, n.handlers[h].(source := Some(back))), h, env, back, m, k);
  }

  lemma {:induction false} EarRefusesWinner(n: Node, h: nat, env: Env, back: Byte, m: Message, k: nat)
    requires Sole(n, h, m.id, k) && n.cells[k].res.uuid == m.id && n.handlers[h].source == Some(back)
    requires n.handlers[h].state == PreReserved && m.EAR? && env.isMe(m.listener) && Kept(env.conns(back)) != []
    requires var bid := env.offer(n.cells[k].res.caps, m.priority); bid.Some? ==> bid.value == 0.0
    ensures var r := n.cells[k].res;
            var r' := if env.offer(r.caps, m.priority).Some? then r.(priority := m.priority, bid := 0.0) else r;
            HandleEar(n, h, env, m)
            == Done(Put(n.(cells := Rewritten(n.cells, k, r')), h, n.handlers[h].(state := Closed)),
                    [Send(REF(m.id), Kept(env.conns(back))[0].locator)])
  {
    hide Kept;
    hide Resumed;
    SoleResumed(n, h, m.id, k);
    assert Rewritten(n.cells, k, n.cells[k].res.(uuid := m.id)) == n.cells;
    assert Rewritten(n.cells, k, n.cells[k].res) == n.cells;
    assert Put(n, h, n.handlers[h]) == n;
    L.PositionIs(n.cells, n.cells[k].addr, k);
  }

  // ---- Where there is no way ----

  /** A node that must answer a request, and has no connection to where it came from, dies: at a MAR
      whatever its bid, at an EAR if it refuses or is the listener. */
  lemma {:induction false} NoWayBackKills(n: Node, env: Env, source: Byte, m: Message)
    requires (m.EAR? || m.MAR?) && !m.payload.Malformed? && Unheard(n, m.id.time) && env.conns(source) == []
    requires m.EAR? ==> Unwelcome(env, m) || env.isMe(m.listener)
    ensures Deliver(n, env, source, m) == Crash
  {
    hide Routed;
    hide Resumed;
    hide L.Admit;
    hide L.MarkReserved;
    hide Forward;
    hide NoEntry;
    hide Own;
    var n0 := MadeFor(n, env, source, m);
    var h, r := |n.handlers|, Statement(m.id, m.priority, Requested(m.payload), m.listener);
    AdmitFirst(n.cells, n.slot, r, m.priority, env.offer);
    assert !HasBid(Put(n0, h, n0.handlers[h].(state := Assessing, ptr := L.Detached(r))), m.id);
  }

  /** An acceptance kills a node that cannot mark the entry, or that is neither the origin nor knows a
      past node. */
  lemma {:induction false} AccKills(n: Node, h: nat, env: Env, source: Byte, t: Id, id: Id, k: nat)
    requires Open(n, h, id, k) && n.handlers[h].state != Reserved && t.time == id.time
    requires KeyFor(n, id, ACC(t)).Some? && KeyFor(n, id, ACC(t)).value !in n.table
    requires || !L.Markable(n.cells[k].res)
             || (KeyFor(n, id, ACC(t)).value !in n.origins && n.cells[k].res.past == None)
    ensures Deliver(n, env, source, ACC(t)) == Crash
  {
    hide Routed;
    hide HandleAcc;
    SoleRouted(n, h, env, source, ACC(t), id, k);
    var key := KeyFor(n, id, ACC(t)).value;
    var n' := Rekeying(n, h, id, key);
    AccDies(Put(n', h, n'.handlers[h].(source := Some(source))), h, env, key, k);
  }

  lemma {:induction false} AccDies(n: Node, h: nat, env: Env, id: Id, k: nat)
    requires Sole(n, h, id, k) && n.handlers[h].state != Reserved && id !in n.table
    requires !L.Markable(n.cells[k].res) || (id !in n.origins && n.cells[k].res.past == None)
    ensures HandleAcc(n, h, env) == Crash
  {
    hide Resumed;
    hide L.Deref;
    SoleResumed(n, h, id, k);
    if L.Markable(n.cells[k].res) {
      hide L.MarkReserved;
      AccMarks(n, h, id, k);
    } else {
      L.PositionIs(Rewritten(n.cells, k, n.cells[k].res.(uuid := id)), n.cells[k].addr, k);
    }
  }

  /** An acceptance whose past node is no port of this node has its entry reserved, and stops there: the
      handler stays in the state it is in, and nothing goes out. */
  lemma {:induction false} AccStops(n: Node, h: nat, env: Env, source: Byte, t: Id, id: Id, k: nat)
    requires Open(n, h, id, k) && n.handlers[h].state != Reserved && L.Markable(n.cells[k].res)
    requires !IsOrigin(n, id.time) && t.time == id.time && t !in n.table
    requires n.cells[k].res.past.Some? && n.cells[k].res.past.value !in env.topology
    ensures var n', r := Rekeying(n, h, id, t), n.cells[k].res.(uuid := t, state := L.Reserved);
            Deliver(n, env, source, ACC(t))
            == Done(Put(n'.(cells := Rewritten(n.cells, k, r)), h, n'.handlers[h].(source := Some(source))), [])
  {
    hide Routed;
    hide HandleAcc;
    assert t !in n.origins;
    SoleRouted(n, h, env, source, ACC(t), id, k);
    var n' := Rekeying(n, h, id, t);
    AccStopsShort(Put(n', h, n'.handlers[h].(source := Some(source))), h, env, t, k);
  }

  lemma {:induction false} AccStopsShort(n: Node, h: nat, env: Env, id: Id, k: nat)
    requires Sole(n, h, id, k) && n.handlers[h].state != Reserved && L.Markable(n.cells[k].res)
    requires id !in n.table && id !in n.origins
    requires n.cells[k].res.past.Some? && n.cells[k].res.past.value !in env.topology
    ensures HandleAcc(n, h, env) == Done(n.(cells := Rewritten(n.cells, k, n.cells[k].res.(uuid := id, state := L.Reserved))), [])
  {
    hide Resumed;
    hide Linked;
    hide L.MarkReserved;
    hide L.Deref;
    hide Port;
    AccMarks(n, h, id, k);
    SoleResumed(n, h, id, k);
  }

  /** A refusal whose source is no port of this node is forgotten like any other, and stops there too. */
  lemma {:induction false} RefStops(n: Node, h: nat, env: Env, source: Byte, t: Id, id: Id, k: nat)
    requires Open(n, h, id, k) && !IsOrigin(n, id.time) && t.time == id.time && t !in n.table
    requires n.handlers[h].source.Some? && n.handlers[h].source.value !in env.topology
    ensures Deliver(n, env, source, REF(t)) == Done(Forgetting(Rekeying(n, h, id, t), h, t, k), [])
  {
    hide Routed;
    hide Resumed;
    hide Erased;
    hide Port;
    assert t !in n.origins;
    SoleRouted(n, h, env, source, REF(t), id, k);
    var n' := Rekeying(n, h, id, t);
    assert Put(n', h, n'.handlers[h]) == n';
    SoleResumed(n', h, t, k);
    RefForgets(n', h, t, k);
  }

  /** A release kills a node with a next node to which it has no connection, and a listener without a
      connection to where the release came from. */
  lemma {:induction false} ReleaseKills(n: Node, h: nat, env: Env, source: Byte, t: Id, listener: Byte, id: Id, k: nat)
    requires Open(n, h, id, k) && t.time == id.time && KeyFor(n, id, REP(t, listener)).Some?
    requires if env.isMe(listener) then env.conns(source) == []
             else exists a <- n.cells[k].res.next :: env.conns(a) == []
    ensures Deliver(n, env, source, REP(t, listener)) == Crash
  {
    hide Routed;
    hide Resumed;
    hide L.Deref;
    var m := REP(t, listener);
    SoleRouted(n, h, env, source, m, id, k);
    var n' := Rekeying(n, h, id, KeyFor(n, id, m).value);
    SoleResumed(Put(n', h, n'.handlers[h].(source := Some(source))), h, KeyFor(n, id, m).value, k);
  }

  /** Where the original id is a key already, the acceptance of a part gives up its own key, and leaves
      the other one to its handler. */
  lemma OccupiedKeyStays(n: Node, h: nat, original: Id)
    requires h < |n.handlers| && n.handlers[h].uuid in n.store && original in n.store && original != n.handlers[h].uuid
    ensures var o := Rekeyed(n, h, original);
            && o.Some? && o.value.store.Keys == n.store.Keys - {n.handlers[h].uuid}
            && (forall j <- o.value.store :: o.value.store[j] == n.store[j])
            && o.value.handlers[h].uuid == original
  {
  }

  /** A release for a handler whose key was forgotten goes nowhere and closes it, unless it is for this
      node. */
  lemma ForgottenRelease(n: Node, h: nat, env: Env, m: Message)
    requires h < |n.handlers| && m.REP? && !env.isMe(m.listener) && n.handlers[h].uuid !in n.store
    ensures var o := HandleRep(n, h, env, m);
            && o.Done? && o.outs == [] && |o.node.handlers| == |n.handlers| && o.node.handlers[h].state == Closed
            && o.node.store == n.store
  {
  }

  /** An auction with bids dies if it has a winner to which there is no connection, or if its entry was
      erased while it waited. */
  lemma {:induction false} AuctionKills(n: Node, h: nat, env: Env, draw: nat -> Entropy)
    requires h < |n.handlers| && n.handlers[h].tally.bids != []
    requires || (exists w <- Winners(n.handlers[h].tally.bids) :: env.conns(w) == [])
             || (n.handlers[h].ptr.Entry? && forall i | 0 <= i < |n.cells| :: n.cells[i].addr != n.handlers[h].ptr.addr)
    ensures Wake(n, h, env, draw) == Crash
  {
    hide Winners;
  }

  /** A timeout that counts dies if the handler holds no reservation, or one in a state that
      cannot be replenished. */
  lemma {:induction false} TimeoutKills(n: Node, h: nat, id: Id, k: nat, timer: Timer)
    requires h < |n.handlers| && n.handlers[h].state != Closed && (n.handlers[h].state == Reserved ==> timer.RepTimer?)
    requires || n.handlers[h].ptr == L.Null
             || (Sole(n, h, id, k) && (n.cells[k].res.state == L.Created || n.cells[k].res.state == L.Cleared))
    ensures Expire(n, h, timer) == Crash
  {
    hide SameKinds;
    if n.handlers[h].ptr != L.Null {
      L.PositionIs(n.cells, n.cells[k].addr, k);
    }
  }
}
