/** How many ledger entries a session has at a node: when one is added, when a session comes to have two,
    and what becomes of the first one then. */
module Entries {
  import opened Basics
  import opened Identifiers
  import opened Capabilities
  import opened Routes
  import opened Protocol
  import opened Handlers
  import opened Processes
  import opened Sessions
  import opened Isolation
  import opened Terminal
  import opened Acceptance
  import opened Network
  import opened Fidelity
  import opened Requests
  import opened Passage
  import opened Outcomes
  import opened Verdicts
  import Rollback
  import L = Ledger

  /** No entry of the session is in the state CREATED, in which every copy begins. */
  ghost predicate Decided(cells: Cells, s: Time)
  {
    forall i | 0 <= i < |cells| && TimeOf(cells[i]) == s :: cells[i].res.state != L.Created
  }

  predicate Nonzero(bid: Option<real>)
  {
    bid.Some? && bid.value != 0.0
  }

  // ---- Ledger operations ----

  lemma AdoptDecided(cells: Cells, id: Id, s: Time)
    requires Decided(cells, s)
    ensures Decided(L.Adopt(cells, id), s) && |L.Adopt(cells, id)| == |cells|
  {
  }

  lemma StoreDecided(cells: Cells, p: Pointer, r: L.Reservation, s: Time)
    requires Decided(cells, s) && (p.Entry? && r.uuid.time == s ==> r.state != L.Created)
    ensures Decided(L.Store(cells, p, r), s) && |L.Store(cells, p, r)| == |cells|
  {
  }

  lemma DerefDecided(cells: Cells, slot: nat, p: Pointer, s: Time)
    requires Decided(cells, s) && Own(cells, slot, p, s) && !p.Detached? && L.Deref(cells, p).Some?
    ensures L.Deref(cells, p).value.state != L.Created && L.Deref(cells, p).value.uuid.time == s
  {
  }

  /** An admission adds one CREATED copy, exactly for a nonzero bid. */
  lemma AdmitAdds(cells: Cells, slot: nat, p: Pointer, priority: Byte, offer: L.Offer, s: Time)
    requires Decided(cells, s) && Own(cells, slot, p, s)
    ensures var a, r := L.Admit(cells, p, priority, offer, slot), L.Deref(cells, p);
            && (a.Accepted? <==> r.Some? && Nonzero(offer(r.value.caps, priority)))
            && (a.Refused? ==> Decided(a.cells, s) && |a.cells| == |cells|)
            && (a.Accepted? ==>
                  && |a.cells| == |cells| + 1 && a.cells[|cells|].addr == slot && a.cells[|cells|].res.state == L.Created
                  && TimeOf(a.cells[|cells|]) == s && Decided(a.cells[..|cells|], s)
                  && a.ptr.Detached? == p.Detached?
                  && (a.ptr.Detached? ==> a.cells[|cells|].res == L.Copy(a.ptr.res) && a.ptr.res.state == p.res.state))
  {
    hide L.Store;
    hide L.Deref;
    hide Decided;
    var r := L.Deref(cells, p);
    if r.Some? {
      if p.Detached? {
        DetachedIs(cells, p);
      } else {
        DerefDecided(cells, slot, p, s);
      }
      var bid := offer(r.value.caps, priority);
      if bid.Some? {
        StoreDecided(cells, p, r.value.(priority := priority, bid := bid.value), s);
        var stored := L.Store(cells, p, r.value.(priority := priority, bid := bid.value));
        assert (stored + [L.Cell(slot, L.Copy(r.value.(priority := priority, bid := bid.value)))])[..|cells|] == stored;
      }
    }
  }

  lemma MarkReservedDecided(cells: Cells, p: Pointer, s: Time)
    requires Decided(cells, s) && L.MarkReserved(cells, p).Some?
    ensures Decided(L.MarkReserved(cells, p).value.cells, s) && |L.MarkReserved(cells, p).value.cells| == |cells|
  {
    hide L.Same;
  }

  /** The copy just pushed is the one that gets marked. */
  lemma MarkReservedPushed(cells: Cells, slot: nat, s: Time)
    requires cells != [] && Addressed(cells, slot + 1) && cells[|cells| - 1].addr == slot
    requires Decided(cells[..|cells| - 1], s) && L.MarkReserved(cells, L.Entry(slot)).Some?
    ensures Decided(L.MarkReserved(cells, L.Entry(slot)).value.cells, s)
    ensures |L.MarkReserved(cells, L.Entry(slot)).value.cells| == |cells|
  {
    var k := |cells| - 1;
    MarkReserves(cells, slot + 1, slot, k);
    hide L.Same;
    var after := L.MarkReserved(cells, L.Entry(slot)).value.cells;
    forall i | 0 <= i < |after| && TimeOf(after[i]) == s ensures after[i].res.state != L.Created {
      if i < k {
        assert cells[..k][i] == cells[i];
      }
    }
  }

  /** ... and that gets pre-reserved, since no other entry of the session is CREATED. */
  lemma MarkPreReservedPushed(cells: Cells, slot: nat, p: Pointer, s: Time)
    requires cells != [] && Addressed(cells, slot + 1) && cells[|cells| - 1].addr == slot
    requires var last := cells[|cells| - 1].res;
             && last.state == L.Created && last.uuid.time == s
             && (p == L.Entry(slot) || (p.Detached? && p.res.state == L.Created && last == L.Copy(p.res)))
    requires Decided(cells[..|cells| - 1], s)
    ensures var marked := L.MarkPreReserved(cells, p, slot + 1);
            marked.Some? && Decided(marked.value.cells, s) && |marked.value.cells| == |cells|
  {
    var k := |cells| - 1;
    var r := cells[k].res;
    L.PositionIs(cells, slot, k);
    assert L.Deref(cells, p) == Some(r);
    L.SameReflexive(r);
    forall i | 0 <= i < k ensures !L.Same(r, cells[i].res) {
      assert cells[..k][i] == cells[i];
    }
    hide SameKinds;
    assert L.SamePosition(cells, r) == k;
    forall i | 0 <= i < k && TimeOf(cells[i]) == s ensures cells[i].res.state != L.Created {
      assert cells[..k][i] == cells[i];
    }
  }

  // ---- One handler step ----

  /** A finished step adds so many entries, and leaves none of the session undecided. */
  ghost predicate Adds(n: Node, s: Time, o: Outcome, k: nat)
  {
    o.Done? ==> |o.node.cells| == |n.cells| + k && Decided(o.node.cells, s)
  }

  ghost predicate Able(n: Node, h: nat, s: Time)
  {
    OwnAt(n, h) && n.handlers[h].uuid.time == s && Decided(n.cells, s)
  }

  lemma ResumedIsAble(n: Node, h: nat, s: Time)
    requires Able(n, h, s)
    ensures Able(Resumed(n, h), h, s) && !Resumed(n, h).handlers[h].ptr.Detached?
    ensures |Resumed(n, h).cells| == |n.cells|
  {
    hide L.Adopt;
    hide L.Adopted;
    hide Decided;
    ResumedIsOwn(n, h);
    AdoptDecided(n.cells, n.handlers[h].uuid, s);
    AdoptFinds(n.cells, n.handlers[h].uuid);
  }

  lemma ForwardAdds(n: Node, h: nat, env: Env, listener: Byte, s: Time)
    requires Able(n, h, s)
    ensures Adds(n, s, Forward(n, h, env, listener), 0)
  {
    hide L.Store;
    hide L.Deref;
    hide Decided;
    var hd := n.handlers[h];
    var r := L.Deref(n.cells, hd.ptr);
    if r.Some? && hd.source.Some? {
      if !hd.ptr.Detached? {
        DerefDecided(n.cells, n.slot, hd.ptr, s);
      }
      StoreDecided(n.cells, hd.ptr, r.value.(past := hd.source), s);
    }
  }

  lemma AtListenerAdds(n: Node, h: nat, env: Env, priority: Byte, s: Time)
    requires Able(n, h, s)
    ensures var r := L.Deref(n.cells, n.handlers[h].ptr);
            Adds(n, s, EarAtListener(n, h, env, priority),
                 if r.Some? && Nonzero(env.offer(r.value.caps, priority)) then 1 else 0)
  {
    hide L.Admit;
    hide L.Deref;
    hide L.MarkReserved;
    hide Decided;
    var ptr := n.handlers[h].ptr;
    AdmitAdds(n.cells, n.slot, ptr, priority, env.offer, s);
    AdmitEvolves(n.cells, n.slot, ptr, priority, env.offer, s);
    match Admitted(n, h, priority, env)
    case Fault =>
    case Refused(_, _) =>
    case Accepted(cells, _) =>
      EvolvesAddressed(n.cells, n.slot, cells, n.slot + 1, s);
      if L.MarkReserved(cells, L.Entry(n.slot)).Some? {
        MarkReservedPushed(cells, n.slot, s);
      }
  }

  /** A relay that makes a statement adds an entry for a nonzero bid; one that has an entry already
      cannot pre-reserve it again. */
  lemma AtRelayAdds(n: Node, h: nat, env: Env, m: Message, s: Time)
    requires Able(n, h, s) && m.EAR?
    requires n.handlers[h].ptr.Detached? ==> n.handlers[h].ptr.res.state == L.Created
    ensures var ptr := n.handlers[h].ptr;
            Adds(n, s, EarAtRelay(n, h, env, m),
                 if ptr.Detached? && Nonzero(env.offer(ptr.res.caps, m.priority)) then 1 else 0)
  {
    hide L.Admit;
    hide L.Deref;
    hide L.MarkPreReserved;
    hide Forward;
    hide Decided;
    hide Evolves;
    hide Own;
    var ptr := n.handlers[h].ptr;
    AdmitAdds(n.cells, n.slot, ptr, m.priority, env.offer, s);
    AdmitEvolves(n.cells, n.slot, ptr, m.priority, env.offer, s);
    if ptr.Detached? {
      DetachedIs(n.cells, ptr);
    }
    match Admitted(n, h, m.priority, env)
    case Fault =>
    case Refused(_, _) =>
    case Accepted(cells, ptr') =>
      EvolvesAddressed(n.cells, n.slot, cells, n.slot + 1, s);
      if L.MarkPreReserved(cells, ptr', n.slot + 1).Some? {
        if ptr.Detached? {
          MarkPreReservedPushed(cells, n.slot, ptr', s);
          RelayGoesOn(n, h, env, m, s, cells, ptr');
        } else {
          StillDecided(n, h, env, m, s);
        }
      }
  }

  lemma RelayGoesOn(n: Node, h: nat, env: Env, m: Message, s: Time, cells: Cells, ptr: Pointer)
    requires Able(n, h, s) && m.EAR? && Admitted(n, h, m.priority, env) == L.Accepted(cells, ptr)
    requires L.MarkPreReserved(cells, ptr, n.slot + 1).Some?
    requires Decided(L.MarkPreReserved(cells, ptr, n.slot + 1).value.cells, s)
    requires |L.MarkPreReserved(cells, ptr, n.slot + 1).value.cells| == |n.cells| + 1
    ensures Adds(n, s, EarAtRelay(n, h, env, m), 1)
  {
    hide L.Admit;
    hide L.MarkPreReserved;
    hide Forward;
    hide Decided;
    hide Evolves;
    AdmitEvolves(n.cells, n.slot, n.handlers[h].ptr, m.priority, env.offer, s);
    EvolvesAddressed(n.cells, n.slot, cells, n.slot + 1, s);
    MarkPreReservedEvolves(cells, n.slot + 1, ptr, s);
    var marked := L.MarkPreReserved(cells, ptr, n.slot + 1).value;
    EvolvesAddressed(cells, n.slot + 1, marked.cells, n.slot + 2, s);
    ForwardAdds(Put(n.(cells := marked.cells, slot := n.slot + 2), h, n.handlers[h].(ptr := marked.ptr)), h, env, m.listener, s);
  }

  /** After the bid was written through a pointer into the ledger, what it leads to is as decided as
      before. */
  lemma StillDecided(n: Node, h: nat, env: Env, m: Message, s: Time)
    requires Able(n, h, s) && m.EAR? && !n.handlers[h].ptr.Detached? && Admitted(n, h, m.priority, env).Accepted?
    ensures var a := Admitted(n, h, m.priority, env); !L.MarkPreReserved(a.cells, a.ptr, n.slot + 1).Some?
  {
    var p := n.handlers[h].ptr;
    var a := Admitted(n, h, m.priority, env);
    var k := L.Position(n.cells, p.addr);
    assert a.cells[k].addr == p.addr && a.cells[k].res.state == n.cells[k].res.state;
    assert forall i | 0 <= i < k :: a.cells[i].addr == n.cells[i].addr;
    assert L.Position(a.cells, p.addr) == k;
  }

  /** Whether the handler admits the message: with a nonzero bid for what it states or, when it has
      pre-reserved before, at the listener for what its entry says. */
  ghost predicate Admits(n: Node, h: nat, env: Env, m: Message)
    requires h < |n.handlers|
  {
    match m
    case EAR(_, priority, listener, payload) =>
      if n.handlers[h].state == PreReserved then
        var r := Reservation(n, h);
        env.isMe(listener) && r.Some? && Nonzero(env.offer(r.value.caps, priority))
      else !payload.Malformed? && Nonzero(env.offer(Requested(payload), priority))
    case MAR(_, priority, _, payload) => !payload.Malformed? && Nonzero(env.offer(Requested(payload), priority))
    case _ => false
  }

  lemma EarAdds(n0: Node, h: nat, env: Env, m: Message, s: Time)
    requires Acting(n0, h) && Able(n0, h, s) && m.EAR? && m.id.time == s
    ensures Adds(n0, s, HandleEar(n0, h, env, m), if Admits(n0, h, env, m) then 1 else 0)
  {
    hide Forward;
    hide EarAtListener;
    hide EarAtRelay;
    hide Decided;
    hide Keys;
    hide SettledBut;
    hide L.Deref;
    ResumedIsAble(n0, h, s);
    var n := Resumed(n0, h);
    var hd := n.handlers[h];
    if hd.state == PreReserved || !m.payload.Malformed? {
      var statement: Pointer := L.Detached(Statement(hd.uuid, m.priority, Requested(m.payload), m.listener));
      var hd' := if hd.state == PreReserved then hd else hd.(state := Assessing, ptr := statement);
      StatementIsOwn(n.cells, n.slot, statement.res);
      DetachedIs(n.cells, statement);
      var n' := Put(n, h, hd');
      if env.isMe(m.listener) {
        AtListenerAdds(n', h, env, m.priority, s);
      } else if HasBid(n', m.id) {
        OwnBid(n0, h, hd', n', m.id);
        LastOfOwn(n'.cells, n'.slot, hd'.uuid, hd'.ptr);
        ForwardAdds(Put(n', h, hd'.(ptr := L.LastOf(n'.cells, hd'.uuid, hd'.ptr))), h, env, m.listener, s);
      } else {
        AtRelayAdds(n', h, env, m, s);
      }
    }
  }

  lemma MarAdds(n0: Node, h: nat, env: Env, m: Message, s: Time)
    requires Able(n0, h, s) && m.MAR? && m.id.time == s
    ensures Adds(n0, s, HandleMar(n0, h, env, m), if Admits(n0, h, env, m) then 1 else 0)
  {
    hide L.Admit;
    hide L.Deref;
    hide L.MarkPreReserved;
    hide Decided;
    hide Own;
    hide Evolves;
    hide Resumed;
    ResumedIsAble(n0, h, s);
    var n := Resumed(n0, h);
    var hd := n.handlers[h];
    var ptr: Pointer := L.Detached(Statement(hd.uuid, m.priority, Requested(m.payload), m.listener));
    StatementIsOwn(n.cells, n.slot, ptr.res);
    DetachedIs(n.cells, ptr);
    AdmitAdds(n.cells, n.slot, ptr, m.priority, env.offer, s);
    AdmitEvolves(n.cells, n.slot, ptr, m.priority, env.offer, s);
    var a := L.Admit(n.cells, ptr, m.priority, env.offer, n.slot);
    if a.Accepted? {
      EvolvesAddressed(n.cells, n.slot, a.cells, n.slot + 1, s);
      MarkPreReservedPushed(a.cells, n.slot, L.Entry(n.slot), s);
    }
  }

  lemma LinkedAdds(n: Node, h: nat, s: Time, outs: seq<Out>)
    requires h < |n.handlers| && Decided(n.cells, s)
    ensures Adds(n, s, Done(Linked(n, h), outs), 0)
  {
    LinkedKeeps(n, h);
    hide Linked;
  }

  lemma PassAcceptAdds(n: Node, h: nat, env: Env, s: Time)
    requires h < |n.handlers| && Decided(n.cells, s)
    ensures Adds(n, s, PassAccept(n, h, env), 0)
  {
    hide Linked;
    hide Decided;
    LinkedAdds(n, h, s, []);
  }

  lemma AccAdds(n0: Node, h: nat, env: Env, s: Time)
    requires Able(n0, h, s)
    ensures Adds(n0, s, HandleAcc(n0, h, env), 0)
  {
    hide Linked;
    hide PassAccept;
    hide L.MarkReserved;
    hide L.Adopt;
    hide L.Adopted;
    hide Decided;
    ResumedIsAble(n0, h, s);
    var n := Resumed(n0, h);
    var hd := n.handlers[h];
    if L.MarkReserved(n.cells, hd.ptr).Some? {
      var n' := n.(cells := L.MarkReserved(n.cells, hd.ptr).value.cells);
      MarkReservedDecided(n.cells, hd.ptr, s);
      LinkedAdds(n', h, s, []);
      PassAcceptAdds(n', h, env, s);
      if hd.uuid in n.table && Rekeyed(n', h, n.table[hd.uuid]).Some? {
        PassAcceptAdds(Rekeyed(n', h, n.table[hd.uuid]).value, h, env, s);
      }
    }
  }

  lemma OthersAdd(n: Node, h: nat, env: Env, m: Message, s: Time)
    requires Able(n, h, s) && (m.BID? || m.REF? || m.REP?)
    ensures Adds(n, s, Handle(n, h, env, m), 0)
  {
    hide L.Adopt;
    hide L.Adopted;
    hide L.Deref;
    hide Erased;
    hide Decided;
    ResumedIsAble(n, h, s);
    var n' := Resumed(n, h);
    if m.REF? && Erased(n', n'.handlers[h].uuid).Some? {
      ErasedShape(n', n'.handlers[h].uuid);
    }
  }

  lemma HandleAdds(n: Node, h: nat, env: Env, m: Message, s: Time)
    requires Acting(n, h) && Able(n, h, s) && m.id.time == s
    ensures Adds(n, s, Handle(n, h, env, m), if Admits(n, h, env, m) then 1 else 0)
  {
    hide HandleEar;
    hide HandleMar;
    hide HandleBid;
    hide HandleAcc;
    hide HandleRef;
    hide HandleRep;
    hide Acting;
    hide Able;
    hide Adds;
    match m
    case EAR(_, _, _, _) => EarAdds(n, h, env, m, s);
    case MAR(_, _, _, _) => MarAdds(n, h, env, m, s);
    case ACC(_) => AccAdds(n, h, env, s);
    case BID(_, _) => OthersAdd(n, h, env, m, s);
    case REF(_) => OthersAdd(n, h, env, m, s);
    case REP(_, _) => OthersAdd(n, h, env, m, s);
  }

  // ---- One message ----

  /** What one can see before a message comes: it adds an entry to its session exactly if it is
      - a request with a nonzero bid for a session the store does not know, or
      - an EAR without requirements whose very id is a key, at its listener, for a handler that is
        PRE_RESERVED (so it made a bid before), when the bid for the entry it has is nonzero. */
  ghost predicate Opens(n: Node, env: Env, m: Message)
  {
    var i := L.FamilyPosition(n.cells, m.id.time);
    if !Known(n, m.id.time) then (m.EAR? || m.MAR?) && Nonzero(BidFor(env, m))
    else
      && m.EAR? && m.payload.Empty? && env.isMe(m.listener)
      && m.id in n.store && n.store[m.id] < |n.handlers|
      && n.handlers[n.store[m.id]].state == PreReserved && !n.handlers[n.store[m.id]].running
      && i < |n.cells| && Nonzero(env.offer(n.cells[i].res.caps, m.priority))
  }

  lemma LocateMine(n: Node, env: Env, m: Message)
    requires Index(n) && m.id != SENTINEL && Known(n, m.id.time)
    requires m.EAR? && m.payload.Empty? && env.isMe(m.listener)
    ensures var place := Locate(n, env, m);
            place == Missing || place == if m.id in n.store then Found(n, n.store[m.id]) else Nowhere(n)
  {
    if m.id in n.store {
      OnlyKey(n, m.id);
      if m.id in n.table {
        TranslationFits(n, m.id);
      }
    }
    hide Index;
    hide Renamed;
  }

  /** The reservation a message works on is the session's first entry. */
  lemma {:induction false} ReservationIsFirst(n: Node, h: nat)
    requires h < |n.handlers| && Addressed(n.cells, n.slot)
    ensures var i := L.FamilyPosition(n.cells, n.handlers[h].uuid.time);
            if i < |n.cells| then Reservation(n, h) == Some(n.cells[i].res.(uuid := n.handlers[h].uuid))
            else Reservation(n, h) == None
  {
    var id := n.handlers[h].uuid;
    var i := L.FamilyPosition(n.cells, id.time);
    if i < |n.cells| {
      var adopted := L.Adopt(n.cells, id);
      assert forall j | 0 <= j < |adopted| :: adopted[j].addr == n.cells[j].addr;
      L.PositionIs(adopted, n.cells[i].addr, i);
    }
  }

  lemma FreshAdmits(n: Node, env: Env, source: Byte, m: Message)
    requires !Known(n, m.id.time)
    ensures var route := Routed(n, env, source, m);
            route.Handed? && route.h < |route.node.handlers| && (Admits(route.node, route.h, env, m) <==> Opens(n, env, m))
  {
    hide Renamed;
    hide Reservation;
  }

  lemma KnownAdmits(n: Node, env: Env, source: Byte, m: Message)
    requires Index(n) && Owned(n) && m.id != SENTINEL && Known(n, m.id.time) && Plain(n, env, Arrival(source, m), m.id.time)
    requires Deliver(n, env, source, m).Done?
    ensures var route := Routed(n, env, source, m);
            Opens(n, env, m) <==> route.Handed? && route.h < |route.node.handlers| && Admits(route.node, route.h, env, m)
  {
    hide Handle;
    hide Reservation;
    hide Own;
    if m.EAR? && m.payload.Empty? {
      if env.isMe(m.listener) {
        LocateMine(n, env, m);
        hide Locate;
        if m.id in n.store {
          var h := n.store[m.id];
          StoredPlaced(n, m.id);
          var n' := Put(n, h, Marked(n.handlers[h], m, source));
          ReservationIsFirst(n', h);
        }
      }
    } else if m.EAR? || m.MAR? {
      RequestIsDropped(n, env, source, m);
    }
  }

  lemma RequestIsDropped(n: Node, env: Env, source: Byte, m: Message)
    requires Known(n, m.id.time) && IsRequest(m)
    ensures Routed(n, env, source, m) == Discarded(n)
  {
  }

  lemma ArrivalAdds(n: Node, env: Env, source: Byte, m: Message, s: Time)
    requires Invariant(n) && Sound(n, env, Arrival(source, m)) && Plain(n, env, Arrival(source, m), s)
    requires Deliver(n, env, source, m).Done? && m.id.time == s && Decided(n.cells, s)
    ensures var n' := Deliver(n, env, source, m).node;
            |n'.cells| == |n.cells| + (if Opens(n, env, m) then 1 else 0) && Decided(n'.cells, s)
  {
    hide Routed;
    hide Handle;
    hide Index;
    hide Owned;
    hide Retired;
    hide Decided;
    hide Opens;
    hide Admits;
    hide Acting;
    RoutingKeepsIndex(n, env, source, m);
    RoutingIsConfined(n, env, source, m);
    RoutingKeepsCells(n, env, source, m);
    var route := Routed(n, env, source, m);
    if route.Handed? {
      OwnedAt(route.node, route.h);
      OwnAtAddressed(route.node, route.h);
      HandleAdds(route.node, route.h, env, m, s);
    }
    if Known(n, s) {
      KnownAdmits(n, env, source, m);
    } else {
      FreshAdmits(n, env, source, m);
    }
  }

  // ---- One event ----

  ghost predicate OpensFor(n: Node, env: Env, e: Event, s: Time)
  {
    e.Arrival? && e.msg.id.time == s && Opens(n, env, e.msg)
  }

  lemma EraseDecided(cells: Cells, i: nat, s: Time)
    requires i < |cells| && Decided(cells, s)
    ensures Decided(L.Erase(cells, i), s) && |L.Erase(cells, i)| == |cells| - 1
  {
    assert forall j | 0 <= j < |cells| - 1 :: L.Erase(cells, i)[j] == cells[if j < i then j else j + 1];
  }

  lemma ReplenishDrops(cells: Cells, p: Pointer, s: Time)
    requires Decided(cells, s) && L.Replenish(cells, p).Some?
    ensures Decided(L.Replenish(cells, p).value, s) && |L.Replenish(cells, p).value| == |cells| - 1
  {
    hide L.Same;
    hide L.Store;
    hide L.Deref;
    hide L.Erase;
    hide Decided;
    var r := L.Deref(cells, p).value;
    StoreDecided(cells, p, r.(state := L.Cleared), s);
    EraseDecided(L.Store(cells, p, r.(state := L.Cleared)), L.EqualPosition(cells, r), s);
  }

  lemma OwnEventAdds(n: Node, env: Env, e: Event, s: Time)
    requires Invariant(n) && Sound(n, env, e) && Plain(n, env, e, s) && Step(n, env, e).Done?
    requires Concerns(n, e, s) && Decided(n.cells, s)
    ensures var n' := Step(n, env, e).node;
            && Decided(n'.cells, s)
            && (if OpensFor(n, env, e, s) then |n'.cells| == |n.cells| + 1 else |n'.cells| <= |n.cells|)
  {
    hide Deliver;
    hide Wake;
    hide L.Replenish;
    hide Index;
    hide Owned;
    hide Retired;
    hide Decided;
    hide Opens;
    match e
    case Arrival(source, m) => ArrivalAdds(n, env, source, m, s);
    case Timeout(h, timer) =>
      if h < |n.handlers| && L.Replenish(n.cells, n.handlers[h].ptr).Some? {
        ReplenishDrops(n.cells, n.handlers[h].ptr, s);
      }
    case Awakening(h, draw) =>
      if h < |n.handlers| && n.handlers[h].running {
        var k := WakeShape(n, h, env, draw);
      }
    case OriginMark(_) =>
  }

  lemma {:induction false} DecidedOnly(cells: Cells, s: Time)
    ensures Decided(cells, s) <==> forall c <- Only(cells, s) :: c.res.state != L.Created
  {
    Rollback.OnlyMembers(cells, s);
  }

  /** Every event: the session's entries grow by one exactly when the event opens, they never grow
      otherwise, and none is left CREATED. */
  lemma {:induction false} StepAdds(n: Node, env: Env, e: Event, s: Time)
    requires Invariant(n) && Sound(n, env, e) && Plain(n, env, e, s) && Step(n, env, e).Done? && Decided(n.cells, s)
    ensures var n' := Step(n, env, e).node;
            && Decided(n'.cells, s)
            && (if OpensFor(n, env, e, s) then |Only(n'.cells, s)| == |Only(n.cells, s)| + 1
                else |Only(n'.cells, s)| <= |Only(n.cells, s)|)
  {
    hide Step;
    hide Sound;
    hide Index;
    hide Owned;
    hide Retired;
    hide Decided;
    hide Only;
    hide Without;
    hide Opens;
    var n' := Step(n, env, e).node;
    if Concerns(n, e, s) {
      OwnEventAdds(n, env, e, s);
      StepIsConfined(n, env, e, s);
      Rollback.OnlyMembers(n.cells, s);
      Rollback.OnlyMembers(n'.cells, s);
    } else {
      var t := SomeSession(n, e);
      StepIsConfined(n, env, e, t);
      ConfinedSameFor(n, n', t, s);
      DecidedOnly(n.cells, s);
      DecidedOnly(n'.cells, s);
    }
  }

  // ---- Whole runs ----

  ghost predicate PlainFor(n: Node, trace: seq<(Env, Event)>, s: Time)
  {
    forall i | 0 <= i < |trace| ::
      var before := Run(n, trace[..i]); before.Some? ==> Plain(before.value, trace[i].0, trace[i].1, s)
  }

  /** The number of entries of the session after i events. */
  ghost function CountAt(trace: seq<(Env, Event)>, i: nat, s: Time): nat
    requires i <= |trace|
  {
    match Run(INITIAL_NODE, trace[..i])
    case None => 0
    case Some(n) => |Only(n.cells, s)|
  }

  /** Event i adds an entry to a session that has one already. */
  ghost predicate Doubles(trace: seq<(Env, Event)>, i: nat, s: Time)
    requires i < |trace|
  {
    var before := Run(INITIAL_NODE, trace[..i]);
    && before.Some? && Only(before.value.cells, s) != []
    && OpensFor(before.value, trace[i].0, trace[i].1, s)
  }

  /** In every run no entry is left CREATED between events: each is pre-reserved, reserved or cleared. */
  lemma {:induction false} DecidedInEveryRun(trace: seq<(Env, Event)>, s: Time)
    requires SoundRun(INITIAL_NODE, trace) && Run(INITIAL_NODE, trace).Some? && PlainFor(INITIAL_NODE, trace, s)
    ensures Decided(Run(INITIAL_NODE, trace).value.cells, s)
  {
    hide Step;
    hide Sound;
    hide Plain;
    hide Only;
    hide OpensFor;
    if trace != [] {
      var front, last := trace[..|trace| - 1], trace[|trace| - 1];
      assert forall i | 0 <= i < |front| :: front[..i] == trace[..i] && front[i] == trace[i];
      RunOn(INITIAL_NODE, trace);
      DecidedInEveryRun(front, s);
      InitialInvariant();
      InvariantOn(INITIAL_NODE, front);
      StepAdds(Run(INITIAL_NODE, front).value, last.0, last.1, s);
    }
  }

  lemma {:induction false} CountGrows(trace: seq<(Env, Event)>, s: Time)
    requires trace != [] && SoundRun(INITIAL_NODE, trace) && Run(INITIAL_NODE, trace).Some? && PlainFor(INITIAL_NODE, trace, s)
    ensures var k := |trace| - 1;
            && CountAt(trace, k, s) == CountAt(trace[..k], k, s)
            && (Doubles(trace, k, s) ==> CountAt(trace, k + 1, s) == CountAt(trace, k, s) + 1 >= 2)
            && (!Doubles(trace, k, s) ==> CountAt(trace, k + 1, s) <= CountAt(trace, k, s) || CountAt(trace, k + 1, s) == 1)
  {
    hide Step;
    hide Sound;
    hide Plain;
    hide OpensFor;
    var k := |trace| - 1;
    var front, last := trace[..k], trace[k];
    assert forall i | 0 <= i < |front| :: front[..i] == trace[..i] && front[i] == trace[i];
    assert front[..k] == front && trace[..k + 1] == trace;
    RunOn(INITIAL_NODE, trace);
    DecidedInEveryRun(front, s);
    InitialInvariant();
    InvariantOn(INITIAL_NODE, front);
    StepAdds(Run(INITIAL_NODE, front).value, last.0, last.1, s);
    hide Run;
    hide Only;
  }

  lemma {:induction false} PrefixCounts(trace: seq<(Env, Event)>, s: Time)
    requires trace != []
    ensures var k := |trace| - 1;
            && (forall i | 0 <= i <= k :: CountAt(trace, i, s) == CountAt(trace[..k], i, s))
            && (forall i | 0 <= i < k :: Doubles(trace, i, s) == Doubles(trace[..k], i, s))
  {
    hide Run;
    hide Only;
    hide OpensFor;
    var front := trace[..|trace| - 1];
    assert forall i | 0 <= i <= |front| :: front[..i] == trace[..i];
  }

  /** In every run: a session has at most one entry at the node all along exactly if no event opens a
      second one, which can be seen before the event. */
  lemma {:induction false} AtMostOneExactly(trace: seq<(Env, Event)>, s: Time)
    requires SoundRun(INITIAL_NODE, trace) && Run(INITIAL_NODE, trace).Some? && PlainFor(INITIAL_NODE, trace, s)
    ensures (forall i | 0 <= i <= |trace| :: CountAt(trace, i, s) <= 1)
       <==> (forall i | 0 <= i < |trace| :: !Doubles(trace, i, s))
  {
    hide Step;
    hide Sound;
    hide Plain;
    hide OpensFor;
    if trace == [] {
      assert trace[..0] == [];
    } else {
      var k := |trace| - 1;
      var front := trace[..k];
      assert forall i | 0 <= i <= |front| :: front[..i] == trace[..i];
      RunOn(INITIAL_NODE, trace);
      CountGrows(trace, s);
      AtMostOneExactly(front, s);
      PrefixCounts(trace, s);
      hide CountAt;
      hide Doubles;
      hide Run;
      hide SoundRun;
      hide PlainFor;
    }
  }

  // ---- A session with two entries ----

  /** A listener that is asked for a bid, bids, and is then sent the EAR as the winner. */
  ghost predicate Wins(n: Node, asking: Env, choosing: Env, source: Byte, back: Byte, m: Message)
  {
    && m.MAR? && m.payload.Carries? && m.id != SENTINEL && m.id !in n.table
    && Invariant(n) && Unheard(n, m.id.time) && asking.conns(source) != []
    && Nonzero(BidFor(asking, m)) && Nonzero(choosing.offer(m.payload.caps, m.priority))
    && choosing.isMe(m.listener) && Kept(choosing.conns(back)) != []
  }

  /** The entry of the bid, and the reserved copy the acceptance makes of it. */
  function BidEntry(asking: Env, choosing: Env, m: Message): L.Reservation
    requires m.MAR? && m.payload.Carries?
    requires BidFor(asking, m).Some? && choosing.offer(m.payload.caps, m.priority).Some?
  {
    EntryFor(m, BidFor(asking, m).value, L.PreReserved, None)
      .(bid := choosing.offer(m.payload.caps, m.priority).value)
  }

  lemma AdmitsEntry(cells: Cells, k: nat, priority: Byte, offer: L.Offer, slot: nat)
    requires k < |cells| && L.Distinct(cells) && Nonzero(offer(cells[k].res.caps, priority))
    ensures var r := cells[k].res.(priority := priority, bid := offer(cells[k].res.caps, priority).value);
            L.Admit(cells, L.Entry(cells[k].addr), priority, offer, slot)
            == L.Accepted(Rewritten(cells, k, r) + [L.Cell(slot, L.Copy(r))], L.Entry(cells[k].addr))
  {
    L.PositionIs(cells, cells[k].addr, k);
  }

  lemma {:induction false} MarksPushed(cells: Cells, k: nat, slot: nat)
    requires k < |cells| && Addressed(cells, slot) && cells[k].res.state != L.Created
    requires forall i | 0 <= i < |cells| && i != k :: TimeOf(cells[i]) != TimeOf(cells[k])
    ensures var r := cells[k].res;
            L.MarkReserved(cells + [L.Cell(slot, L.Copy(r))], L.Entry(slot))
            == Some(L.Marked(cells + [L.Cell(slot, r.(state := L.Reserved))], L.Entry(slot)))
  {
    hide SameKinds;
    var r := cells[k].res;
    var all := cells + [L.Cell(slot, L.Copy(r))];
    assert forall i | 0 <= i < |cells| :: all[i] == cells[i];
    L.PositionIs(all, slot, |cells|);
    L.SameReflexive(L.Copy(r));
    assert L.ReserveFirst(all, L.Copy(r), |cells| + 1) == cells + [L.Cell(slot, r.(state := L.Reserved))];
  }

  /** A listener that has pre-reserved before, and is sent the EAR of the winner, reserves a copy of its
      entry and answers ACC; the entry stays. */
  lemma {:induction false} AcceptsTwice(n: Node, h: nat, env: Env, back: Byte, m: Message, k: nat)
    requires Open(n, h, m.id, k) && m.id !in n.table && n.cells[k].res.uuid == m.id
    requires n.handlers[h].state == PreReserved && n.cells[k].res.state != L.Created && Addressed(n.cells, n.slot)
    requires m.EAR? && m.payload == Empty && env.isMe(m.listener) && Kept(env.conns(back)) != []
    requires Nonzero(env.offer(n.cells[k].res.caps, m.priority))
    ensures var r := n.cells[k].res;
            var r' := r.(priority := m.priority, bid := env.offer(r.caps, m.priority).value);
            var n' := n.(cells := Rewritten(n.cells, k, r') + [L.Cell(n.slot, r'.(state := L.Reserved))], slot := n.slot + 1);
            Deliver(n, env, back, m)
            == Done(Put(n', h, n.handlers[h].(source := Some(back), ptr := L.Entry(n.slot), state := Reserved)),
                    [Send(ACC(m.id), Kept(env.conns(back))[0].locator)])
  {
    hide Routed;
    hide Kept;
    hide HandleEar;
    SoleRouted(n, h, env, back, m, m.id, k);
    RekeyingSame(n, h, m.id, k);
    EarAcceptsTwice(Put(n, h, n.handlers[h].(source := Some(back))), h, env, back, m, k);
  }

  lemma {:induction false} EarAcceptsTwice(n: Node, h: nat, env: Env, back: Byte, m: Message, k: nat)
    requires Sole(n, h, m.id, k) && n.cells[k].res.uuid == m.id && n.handlers[h].source == Some(back)
    requires n.handlers[h].state == PreReserved && n.cells[k].res.state != L.Created && Addressed(n.cells, n.slot)
    requires m.EAR? && env.isMe(m.listener) && Kept(env.conns(back)) != []
    requires Nonzero(env.offer(n.cells[k].res.caps, m.priority))
    ensures var r := n.cells[k].res;
            var r' := r.(priority := m.priority, bid := env.offer(r.caps, m.priority).value);
            var n' := n.(cells := Rewritten(n.cells, k, r') + [L.Cell(n.slot, r'.(state := L.Reserved))], slot := n.slot + 1);
            HandleEar(n, h, env, m)
            == Done(Put(n', h, n.handlers[h].(ptr := L.Entry(n.slot), state := Reserved)),
                    [Send(ACC(m.id), Kept(env.conns(back))[0].locator)])
  {
    hide Kept;
    hide Resumed;
    hide L.Admit;
    hide L.MarkReserved;
    SoleResumed(n, h, m.id, k);
    assert Rewritten(n.cells, k, n.cells[k].res.(uuid := m.id)) == n.cells;
    assert Put(n, h, n.handlers[h]) == n;
    assert HandleEar(n, h, env, m) == EarAtListener(n, h, env, m.priority);
    AdmitsEntry(n.cells, k, m.priority, env.offer, n.slot);
    var cells := Rewritten(n.cells, k, n.cells[k].res.(priority := m.priority, bid := env.offer(n.cells[k].res.caps, m.priority).value));
    assert forall i | 0 <= i < |cells| :: cells[i].addr == n.cells[i].addr;
    MarksPushed(cells, k, n.slot);
  }

  lemma {:induction false} OnlyTwo(cells: Cells, a: L.Cell<nat>, b: L.Cell<nat>, s: Time)
    requires NoEntry(cells, s) && TimeOf(a) == TimeOf(b) == s
    ensures Only(cells + [a] + [b], s) == [a, b]
  {
    NothingOnly(cells, s);
    assert (cells + [a])[..|cells|] == cells && (cells + [a] + [b])[..|cells| + 1] == cells + [a];
    assert Only(cells + [a], s) == [a];
  }

  lemma {:induction false} OnlyOne(cells: Cells, a: L.Cell<nat>, s: Time)
    requires NoEntry(cells, s) && TimeOf(a) == s
    ensures Only(cells + [a], s) == [a]
  {
    NothingOnly(cells, s);
    assert (cells + [a])[..|cells|] == cells;
  }

  lemma TwoInvariants(n: Node, asking: Env, choosing: Env, source: Byte, back: Byte, m: Message)
    requires Invariant(n) && m.MAR? && m.id != SENTINEL && Deliver(n, asking, source, m).Done?
    ensures var n1, chosen := Deliver(n, asking, source, m).node, EAR(m.id, m.priority, m.listener, Empty);
            && Invariant(n1)
            && (Deliver(n1, choosing, back, chosen).Done? ==> Invariant(Deliver(n1, choosing, back, chosen).node))
  {
    hide Deliver;
    hide Sound;
    hide Invariant;
    var n1, chosen := Deliver(n, asking, source, m).node, EAR(m.id, m.priority, m.listener, Empty);
    SoundArrival(n, asking, source, m);
    StepKeepsInvariant(n, asking, Arrival(source, m));
    SoundArrival(n1, choosing, back, chosen);
    if Deliver(n1, choosing, back, chosen).Done? {
      StepKeepsInvariant(n1, choosing, Arrival(back, chosen));
    }
  }

  lemma OpensAtWinner(n: Node, h: nat, env: Env, m: Message, k: nat)
    requires Sole(n, h, m.id, k) && n.handlers[h].state == PreReserved && !n.handlers[h].running
    requires m.EAR? && m.payload.Empty? && env.isMe(m.listener) && Nonzero(env.offer(n.cells[k].res.caps, m.priority))
    ensures Opens(n, env, m)
  {
    FamilyPositionIs(n.cells, m.id.time, k);
    assert Known(n, m.id.time);
  }

  lemma {:induction false} HoldsTwo(n: Node, s: Time, h: nat, trace: seq<(Env, Event)>, a: L.Cell<nat>, b: L.Cell<nat>)
    requires Invariant(n) && Holds(n, s, h) && Only(n.cells, s) == [a, b]
    requires SoundRun(n, trace) && Run(n, trace).Some? && MildRun(n, trace, s)
    ensures var left := Only(Run(n, trace).value.cells, s);
            |left| == 2 && left[0].res.state == a.res.state && left[1].res.state == b.res.state
  {
    hide Only;
    hide Invariant;
    hide Holds;
    hide SoundRun;
    hide Run;
    hide MildRun;
    ReservedHolds(n, trace, s, h);
    var left, was := Only(Run(n, trace).value.cells, s), Only(n.cells, s);
    assert Blank(left) == Blank(was) && |left| == 2;
    assert Blank(left)[0] == Blank(was)[0];
    assert Blank(left)[1] == Blank(was)[1];
  }

  /** The listener has its bid's entry, and then that and the reserved copy. */
  lemma Won(n: Node, asking: Env, choosing: Env, source: Byte, back: Byte, m: Message)
    requires Wins(n, asking, choosing, source, back, m)
    ensures var s, h, chosen := m.id.time, |n.handlers|, EAR(m.id, m.priority, m.listener, Empty);
            var bid, r := Deliver(n, asking, source, m), BidEntry(asking, choosing, m);
            && bid.Done? && |Only(bid.node.cells, s)| == 1 && Opens(bid.node, choosing, chosen)
            && var won := Deliver(bid.node, choosing, back, chosen);
               && won.Done? && Holds(won.node, s, h)
               && Only(won.node.cells, s) == [L.Cell(n.slot, r), L.Cell(n.slot + 2, r.(state := L.Reserved))]
  {
    hide Deliver;
    hide Kept;
    hide Opens;
    hide Only;
    hide Invariant;
    var s, h, chosen := m.id.time, |n.handlers|, EAR(m.id, m.priority, m.listener, Empty);
    var first, r := EntryFor(m, BidFor(asking, m).value, L.PreReserved, None), BidEntry(asking, choosing, m);
    var cell := L.Cell(n.slot, first);
    Bids(n, asking, source, m);
    WithIsSole(n, m, source, PreReserved, first, n.slot + 2);
    var n1 := With(n, m, source, PreReserved, first, n.slot + 2);
    TwoInvariants(n, asking, choosing, source, back, m);
    InvariantAddressed(n1);
    OpensAtWinner(n1, h, choosing, chosen, |n.cells|);
    AcceptsTwice(n1, h, choosing, back, chosen, |n.cells|);
    assert Rewritten(n1.cells, |n.cells|, r) == n.cells + [L.Cell(n.slot, r)];
    OnlyOne(n.cells, cell, s);
    OnlyTwo(n.cells, L.Cell(n.slot, r), L.Cell(n.slot + 2, r.(state := L.Reserved)), s);
  }

  lemma InvariantAddressed(n: Node)
    requires Invariant(n)
    ensures Addressed(n.cells, n.slot)
  {
  }

  /** The input on which a session comes to have two entries: it made a bid, and then the EAR of the
      winner reaches it as the listener. The entry of the bid stays PRE_RESERVED beside the RESERVED
      copy, and from then on no EAR, MAR or BID timeout, no repeated request and no repeated ACC, among
      any events of other sessions, ever releases it. */
  lemma {:induction false} BidEntryStays(
    n: Node, asking: Env, choosing: Env, source: Byte, back: Byte, m: Message, trace: seq<(Env, Event)>)
    returns (won: Node)
    requires Wins(n, asking, choosing, source, back, m)
    ensures var bid, chosen := Deliver(n, asking, source, m), EAR(m.id, m.priority, m.listener, Empty);
            && bid.Done? && |Only(bid.node.cells, m.id.time)| == 1 && Opens(bid.node, choosing, chosen)
            && Deliver(bid.node, choosing, back, chosen).Done? && won == Deliver(bid.node, choosing, back, chosen).node
    ensures var entries := Only(won.cells, m.id.time);
            |entries| == 2 && entries[0].res.state == L.PreReserved && entries[1].res.state == L.Reserved
    ensures SoundRun(won, trace) && Run(won, trace).Some? && MildRun(won, trace, m.id.time) ==>
              var left := Only(Run(won, trace).value.cells, m.id.time);
              |left| == 2 && left[0].res.state == L.PreReserved && left[1].res.state == L.Reserved
  {
    hide Deliver;
    hide Kept;
    hide Opens;
    hide Only;
    hide Invariant;
    hide Holds;
    hide SoundRun;
    hide MildRun;
    hide Run;
    Won(n, asking, choosing, source, back, m);
    TwoInvariants(n, asking, choosing, source, back, m);
    var bid, r := Deliver(n, asking, source, m), BidEntry(asking, choosing, m);
    won := Deliver(bid.node, choosing, back, EAR(m.id, m.priority, m.listener, Empty)).node;
    if SoundRun(won, trace) && Run(won, trace).Some? && MildRun(won, trace, m.id.time) {
      HoldsTwo(won, m.id.time, |n.handlers|, trace, L.Cell(n.slot, r), L.Cell(n.slot + 2, r.(state := L.Reserved)));
    }
  }
}
