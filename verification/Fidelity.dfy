/** A request reaches its listener as it was asked for, over any number of hops and auctions. */
module Fidelity {
  import opened Basics
  import opened Identifiers
  import opened Capabilities
  import opened Routes
  import opened Auction
  import opened Protocol
  import opened Handlers
  import opened Processes
  import opened Sessions
  import opened Isolation
  import opened Terminal
  import opened Network
  import opened Acceptance
  import Rollback
  import Assessment
  import L = Ledger

  /** What the origin of a session asked for. */
  datatype Ask = Ask(priority: Byte, listener: Byte, caps: Caps)

  ghost predicate Meets(r: L.Reservation, ask: Ask)
  {
    r.priority == ask.priority && r.listener == ask.listener && r.caps == ask.caps
  }

  /** A message says what was asked, or (to a neighbour that has heard it before) leaves it out. */
  ghost predicate Honest(m: Message, s: Time, ask: Ask)
  {
    m.id.time == s && (m.EAR? || m.MAR?) ==>
      m.priority == ask.priority && m.listener == ask.listener && (m.payload == Empty || m.payload == Carries(ask.caps))
  }

  ghost predicate AllHonest(outs: seq<Out>, s: Time, ask: Ask)
  {
    forall i | 0 <= i < |outs| && outs[i].Send? :: Honest(outs[i].msg, s, ask)
  }

  /** Every ledger entry of the session is for what was asked. */
  ghost predicate True(cells: Cells, s: Time, ask: Ask)
  {
    forall i | 0 <= i < |cells| && TimeOf(cells[i]) == s :: Meets(cells[i].res, ask)
  }

  /** A request without requirements gets no bid. */
  ghost predicate RefusesNothing(offer: L.Offer, priority: Byte)
  {
    var bid := offer(NO_CAPS, priority);
    bid.Some? ==> bid.value == 0.0
  }

  lemma {:induction false} NothingOrdered(k: nat)
    ensures ItemsFrom(NO_CAPS, k) == []
    decreases 256 - k
  {
    if k < 256 {
      NothingOrdered(k + 1);
    }
  }

  /** Resources' own bids are like that, whatever the sensors say. */
  lemma OwnBidsRefuseNothing(sensors: Assessment.Sensors, priority: Byte)
    requires Assessment.Plausible(sensors)
    ensures RefusesNothing((caps: Caps, p: Byte) => Assessment.Bid(caps, p, sensors), priority)
  {
    hide Assessment.Bid;
    NothingOrdered(0);
    Assessment.AcceptedExactly(NO_CAPS, priority, sensors);
  }

  // ---- Ledger operations ----

  ghost predicate Nearly(r: L.Reservation, ask: Ask)
  {
    r.listener == ask.listener && (r.caps == ask.caps || r.caps == NO_CAPS)
  }

  lemma DerefMeets(cells: Cells, slot: nat, p: Pointer, s: Time, ask: Ask)
    requires True(cells, s, ask) && Own(cells, slot, p, s) && !p.Detached? && L.Deref(cells, p).Some?
    ensures Meets(L.Deref(cells, p).value, ask)
  {
  }

  lemma StoreKeepsTrue(cells: Cells, p: Pointer, r: L.Reservation, s: Time, ask: Ask)
    requires True(cells, s, ask) && (p.Entry? ==> Meets(r, ask))
    ensures True(L.Store(cells, p, r), s, ask)
  {
  }

  lemma AdoptKeepsTrue(cells: Cells, id: Id, s: Time, ask: Ask)
    requires True(cells, s, ask)
    ensures True(L.Adopt(cells, id), s, ask) && !L.Adopted(cells, id).Detached?
  {
  }

  lemma PushKeepsTrue(cells: Cells, c: L.Cell<nat>, s: Time, ask: Ask)
    requires True(cells, s, ask) && Meets(c.res, ask)
    ensures True(cells + [c], s, ask)
  {
  }

  lemma AdmitKeepsTrue(cells: Cells, slot: nat, p: Pointer, offer: L.Offer, s: Time, ask: Ask)
    requires True(cells, s, ask) && Own(cells, slot, p, s) && (p.Detached? ==> Nearly(p.res, ask))
    requires RefusesNothing(offer, ask.priority)
    ensures var a := L.Admit(cells, p, ask.priority, offer, slot);
            && (a.Refused? ==> True(a.cells, s, ask))
            && (a.Accepted? ==> True(a.cells, s, ask) && a.ptr.Detached? == p.Detached? && (a.ptr.Detached? ==> Meets(a.ptr.res, ask)))
  {
    hide True;
    hide L.Deref;
    hide L.Store;
    var r := L.Deref(cells, p);
    if r.Some? {
      if p.Detached? {
        DetachedIs(cells, p);
      } else {
        DerefMeets(cells, slot, p, s, ask);
      }
      var bid := offer(r.value.caps, ask.priority);
      if bid.Some? {
        var r' := r.value.(priority := ask.priority, bid := bid.value);
        StoreKeepsTrue(cells, p, r', s, ask);
        if bid.value != 0.0 {
          PushKeepsTrue(L.Store(cells, p, r'), L.Cell(slot, L.Copy(r')), s, ask);
        }
      }
    }
  }

  lemma DetachedIs(cells: Cells, p: Pointer)
    requires p.Detached?
    ensures L.Deref(cells, p) == Some(p.res)
  {
  }

  lemma MarkReservedKeepsTrue(cells: Cells, p: Pointer, s: Time, ask: Ask)
    requires True(cells, s, ask) && L.MarkReserved(cells, p).Some?
    ensures True(L.MarkReserved(cells, p).value.cells, s, ask)
  {
    hide L.Same;
  }

  lemma MarkPreReservedKeepsTrue(cells: Cells, slot: nat, p: Pointer, slot': nat, s: Time, ask: Ask)
    requires True(cells, s, ask) && Own(cells, slot, p, s) && (p.Detached? ==> Meets(p.res, ask))
    requires L.MarkPreReserved(cells, p, slot').Some?
    ensures var marked := L.MarkPreReserved(cells, p, slot').value; True(marked.cells, s, ask) && marked.ptr.Entry?
  {
    hide L.Same;
    hide L.Deref;
    var r := L.Deref(cells, p).value;
    if p.Detached? {
      DetachedIs(cells, p);
    } else {
      DerefMeets(cells, slot, p, s, ask);
    }
    PushKeepsTrue(cells, L.Cell(slot', L.Copy(r)), s, ask);
  }

  lemma ReplenishKeepsTrue(cells: Cells, slot: nat, p: Pointer, s: Time, t: Time, ask: Ask)
    requires True(cells, s, ask) && Own(cells, slot, p, t) && L.Replenish(cells, p).Some?
    ensures True(L.Replenish(cells, p).value, s, ask)
  {
    hide L.Same;
    var r := L.Deref(cells, p).value;
    var i := L.EqualPosition(cells, r);
    var stored := L.Store(cells, p, r.(state := L.Cleared));
    assert forall j | 0 <= j < |cells| :: stored[j] == cells[j] || stored[j].res == cells[j].res.(state := L.Cleared);
    assert forall j | 0 <= j < |stored| - 1 :: L.Erase(stored, i)[j] == stored[if j < i then j else j + 1];
  }

  // ---- One handler step ----

  ghost predicate Anchored(hd: Handler)
  {
    hd.running || hd.state == AuctionWaiting ==> !hd.ptr.Detached?
  }

  /** What a step of handler h in session s leaves: true entries, an anchored handler, honest output. */
  ghost predicate Loyal(h: nat, s: Time, ask: Ask, o: Outcome)
  {
    o.Done? ==>
      h < |o.node.handlers| && True(o.node.cells, s, ask) && Anchored(o.node.handlers[h]) && AllHonest(o.outs, s, ask)
  }

  /** Handler h of session s may act on a ledger that is true so far. */
  ghost predicate Ready(n: Node, h: nat, s: Time, ask: Ask)
  {
    OwnAt(n, h) && n.handlers[h].uuid.time == s && True(n.cells, s, ask) && !n.handlers[h].running
  }

  lemma ResumedIsReady(n: Node, h: nat, s: Time, ask: Ask)
    requires Ready(n, h, s, ask)
    ensures Ready(Resumed(n, h), h, s, ask) && !Resumed(n, h).handlers[h].ptr.Detached?
  {
    hide L.Adopt;
    hide L.Adopted;
    hide True;
    ResumedIsOwn(n, h);
    AdoptKeepsTrue(n.cells, n.handlers[h].uuid, s, ask);
  }

  lemma ForwardIsLoyal(n: Node, h: nat, env: Env, s: Time, ask: Ask)
    requires Ready(n, h, s, ask) && !n.handlers[h].ptr.Detached? && Consecutive(ask.caps)
    ensures Loyal(h, s, ask, Forward(n, h, env, ask.listener))
  {
    hide True;
    hide Kept;
    hide L.Deref;
    hide L.Store;
    hide Consecutive;
    var hd := n.handlers[h];
    var r := L.Deref(n.cells, hd.ptr);
    if r.Some? && hd.source.Some? {
      DerefMeets(n.cells, n.slot, hd.ptr, s, ask);
      StoreKeepsTrue(n.cells, hd.ptr, r.value.(past := hd.source), s, ask);
    }
  }

  lemma AtListenerIsLoyal(n: Node, h: nat, env: Env, s: Time, ask: Ask)
    requires Ready(n, h, s, ask) && RefusesNothing(env.offer, ask.priority)
    requires n.handlers[h].ptr.Detached? ==> Nearly(n.handlers[h].ptr.res, ask)
    ensures Loyal(h, s, ask, EarAtListener(n, h, env, ask.priority))
  {
    hide True;
    hide L.Admit;
    hide L.MarkReserved;
    hide Own;
    hide Addressed;
    AdmitKeepsTrue(n.cells, n.slot, n.handlers[h].ptr, env.offer, s, ask);
    match Admitted(n, h, ask.priority, env)
    case Fault =>
    case Refused(_, _) =>
    case Accepted(cells, _) =>
      if L.MarkReserved(cells, L.Entry(n.slot)).Some? {
        MarkReservedKeepsTrue(cells, L.Entry(n.slot), s, ask);
      }
  }

  lemma AtRelayIsLoyal(n: Node, h: nat, env: Env, m: Message, s: Time, ask: Ask)
    requires Ready(n, h, s, ask) && RefusesNothing(env.offer, ask.priority) && Consecutive(ask.caps)
    requires n.handlers[h].ptr.Detached? ==> Nearly(n.handlers[h].ptr.res, ask)
    requires m.EAR? && m.priority == ask.priority && m.listener == ask.listener
    ensures Loyal(h, s, ask, EarAtRelay(n, h, env, m))
  {
    hide True;
    hide L.Admit;
    hide L.MarkPreReserved;
    hide Own;
    hide Addressed;
    hide Forward;
    hide Consecutive;
    AdmitKeepsTrue(n.cells, n.slot, n.handlers[h].ptr, env.offer, s, ask);
    AdmitEvolves(n.cells, n.slot, n.handlers[h].ptr, m.priority, env.offer, s);
    match Admitted(n, h, m.priority, env)
    case Fault =>
    case Refused(_, _) =>
    case Accepted(cells, ptr) =>
      EvolvesAddressed(n.cells, n.slot, cells, n.slot + 1, s);
      if L.MarkPreReserved(cells, ptr, n.slot + 1).Some? {
        var marked := L.MarkPreReserved(cells, ptr, n.slot + 1).value;
        MarkPreReservedEvolves(cells, n.slot + 1, ptr, s);
        EvolvesAddressed(cells, n.slot + 1, marked.cells, n.slot + 2, s);
        MarkPreReservedKeepsTrue(cells, n.slot + 1, ptr, n.slot + 1, s, ask);
        var n' := Put(n.(cells := marked.cells, slot := n.slot + 2), h, n.handlers[h].(ptr := marked.ptr));
        ForwardIsLoyal(n', h, env, s, ask);
      }
  }

  lemma {:induction false} LastOfEntry(cells: Cells, id: Id, p: Pointer)
    requires !p.Detached?
    ensures !L.LastOf(cells, id, p).Detached?
  {
    LastOfIs(cells, id, p);
  }

  lemma EarIsLoyal(n0: Node, h: nat, env: Env, m: Message, s: Time, ask: Ask)
    requires Acting(n0, h) && Ready(n0, h, s, ask) && RefusesNothing(env.offer, ask.priority) && Consecutive(ask.caps)
    requires m.EAR? && m.id.time == s && Honest(m, s, ask)
    ensures Loyal(h, s, ask, HandleEar(n0, h, env, m))
  {
    hide True;
    hide Own;
    hide Addressed;
    hide Forward;
    hide EarAtListener;
    hide EarAtRelay;
    hide Consecutive;
    hide Keys;
    hide SettledBut;
    ResumedIsReady(n0, h, s, ask);
    var n := Resumed(n0, h);
    var hd := n.handlers[h];
    if hd.state == PreReserved || !m.payload.Malformed? {
      var hd' := if hd.state == PreReserved then hd
                 else hd.(state := Assessing,
                          ptr := L.Detached(Statement(hd.uuid, m.priority, Requested(m.payload), m.listener)));
      StatementIsOwn(n.cells, n.slot, Statement(hd.uuid, m.priority, Requested(m.payload), m.listener));
      var n' := Put(n, h, hd');
      if env.isMe(m.listener) {
        AtListenerIsLoyal(n', h, env, s, ask);
      } else if HasBid(n', m.id) {
        OwnBid(n0, h, hd', n', m.id);
        LastOfOwn(n'.cells, n'.slot, hd'.uuid, hd'.ptr);
        LastOfEntry(n'.cells, hd'.uuid, hd'.ptr);
        ForwardIsLoyal(Put(n', h, hd'.(ptr := L.LastOf(n'.cells, hd'.uuid, hd'.ptr))), h, env, s, ask);
      } else {
        AtRelayIsLoyal(n', h, env, m, s, ask);
      }
    }
  }

  lemma OwnBid(n0: Node, h: nat, hd: Handler, n: Node, id: Id)
    requires Acting(n0, h) && hd.uuid == n0.handlers[h].uuid && id.time == hd.uuid.time
    requires n.store == n0.store && n.handlers == n0.handlers[h := hd] && HasBid(n, id)
    ensures hd.state == PreReserved
  {
  }

  lemma MarIsLoyal(n0: Node, h: nat, env: Env, m: Message, s: Time, ask: Ask)
    requires Ready(n0, h, s, ask) && RefusesNothing(env.offer, ask.priority)
    requires m.MAR? && m.id.time == s && Honest(m, s, ask)
    ensures Loyal(h, s, ask, HandleMar(n0, h, env, m))
  {
    hide True;
    hide Own;
    hide Addressed;
    hide L.Admit;
    hide L.MarkPreReserved;
    ResumedIsReady(n0, h, s, ask);
    var n := Resumed(n0, h);
    var hd := n.handlers[h];
    if !m.payload.Malformed? {
      var r := Statement(hd.uuid, m.priority, Requested(m.payload), m.listener);
      StatementIsOwn(n.cells, n.slot, r);
      AdmitKeepsTrue(n.cells, n.slot, L.Detached(r), env.offer, s, ask);
      AdmitEvolves(n.cells, n.slot, L.Detached(r), m.priority, env.offer, s);
      var a := L.Admit(n.cells, L.Detached(r), m.priority, env.offer, n.slot);
      if a.Accepted? && L.MarkPreReserved(a.cells, L.Entry(n.slot), n.slot + 1).Some? {
        MarkPreReservedKeepsTrue(a.cells, n.slot + 1, L.Entry(n.slot), n.slot + 1, s, ask);
      }
    }
  }

  lemma BidIsLoyal(n: Node, h: nat, m: Message, s: Time, ask: Ask)
    requires Ready(n, h, s, ask) && m.BID?
    ensures Loyal(h, s, ask, HandleBid(n, h, m))
  {
    ResumedIsReady(n, h, s, ask);
  }

  lemma RepIsLoyal(n: Node, h: nat, env: Env, m: Message, s: Time, ask: Ask)
    requires Ready(n, h, s, ask) && m.REP?
    ensures Loyal(h, s, ask, HandleRep(n, h, env, m))
  {
    hide True;
    hide L.Adopt;
    hide L.Adopted;
    hide L.Deref;
    ResumedIsReady(n, h, s, ask);
  }

  lemma RefIsLoyal(n: Node, h: nat, env: Env, s: Time, ask: Ask)
    requires Ready(n, h, s, ask)
    ensures Loyal(h, s, ask, HandleRef(n, h, env))
  {
    hide True;
    hide L.Adopt;
    hide L.Adopted;
    hide L.Deref;
    hide Erased;
    ResumedIsReady(n, h, s, ask);
    var n' := Resumed(n, h);
    if Erased(n', n'.handlers[h].uuid).Some? {
      ErasedShape(n', n'.handlers[h].uuid);
    }
  }

  lemma LinkedIsTrue(n: Node, h: nat, s: Time, ask: Ask)
    requires h < |n.handlers| && Own(n.cells, n.slot, n.handlers[h].ptr, s) && True(n.cells, s, ask)
    requires !n.handlers[h].ptr.Detached?
    ensures True(Linked(n, h).cells, s, ask) && |Linked(n, h).handlers| == |n.handlers|
    ensures Linked(n, h).handlers[h].ptr == n.handlers[h].ptr
  {
    hide True;
    hide L.Store;
    var r := L.Deref(n.cells, n.handlers[h].ptr);
    if r.Some? {
      DerefMeets(n.cells, n.slot, n.handlers[h].ptr, s, ask);
      if n.handlers[h].source.Some? {
        StoreKeepsTrue(n.cells, n.handlers[h].ptr, r.value.(next := r.value.next + [n.handlers[h].source.value]), s, ask);
      }
    }
  }

  lemma PassAcceptIsLoyal(n: Node, h: nat, env: Env, s: Time, ask: Ask)
    requires h < |n.handlers| && Own(n.cells, n.slot, n.handlers[h].ptr, s) && True(n.cells, s, ask)
    requires !n.handlers[h].ptr.Detached?
    ensures Loyal(h, s, ask, PassAccept(n, h, env))
  {
    hide True;
    hide Linked;
    hide L.Deref;
    LinkedIsTrue(n, h, s, ask);
  }

  lemma AccIsLoyal(n0: Node, h: nat, env: Env, s: Time, ask: Ask)
    requires Ready(n0, h, s, ask)
    ensures Loyal(h, s, ask, HandleAcc(n0, h, env))
  {
    hide True;
    hide Own;
    hide Addressed;
    hide Linked;
    hide PassAccept;
    hide L.MarkReserved;
    hide L.Adopt;
    hide L.Adopted;
    ResumedIsReady(n0, h, s, ask);
    var n := Resumed(n0, h);
    var hd := n.handlers[h];
    if L.MarkReserved(n.cells, hd.ptr).Some? {
      var cells := L.MarkReserved(n.cells, hd.ptr).value.cells;
      var n' := n.(cells := cells);
      MarkReservedKeepsTrue(n.cells, hd.ptr, s, ask);
      MarkReservedEvolves(n.cells, n.slot, hd.ptr, s);
      EvolvesOwn(n.cells, n.slot, cells, n.slot, s, hd.ptr, s);
      LinkedIsTrue(n', h, s, ask);
      PassAcceptIsLoyal(n', h, env, s, ask);
      if hd.uuid in n.table && Rekeyed(n', h, n.table[hd.uuid]).Some? {
        PassAcceptIsLoyal(Rekeyed(n', h, n.table[hd.uuid]).value, h, env, s, ask);
      }
    }
  }

  lemma HandleIsLoyal(n: Node, h: nat, env: Env, m: Message, s: Time, ask: Ask)
    requires Acting(n, h) && Ready(n, h, s, ask) && RefusesNothing(env.offer, ask.priority) && Consecutive(ask.caps)
    requires m.id.time == s && Honest(m, s, ask)
    ensures Loyal(h, s, ask, Handle(n, h, env, m))
  {
    hide HandleEar;
    hide HandleMar;
    hide HandleBid;
    hide HandleAcc;
    hide HandleRef;
    hide HandleRep;
    hide Acting;
    hide Ready;
    hide Loyal;
    hide Consecutive;
    match m
    case EAR(_, _, _, _) => EarIsLoyal(n, h, env, m, s, ask);
    case MAR(_, _, _, _) => MarIsLoyal(n, h, env, m, s, ask);
    case BID(_, _) => BidIsLoyal(n, h, m, s, ask);
    case ACC(_) => AccIsLoyal(n, h, env, s, ask);
    case REF(_) => RefIsLoyal(n, h, env, s, ask);
    case REP(_, _) => RepIsLoyal(n, h, env, m, s, ask);
  }

  lemma WakeIsLoyal(n: Node, h: nat, env: Env, draw: nat -> Entropy, s: Time, ask: Ask)
    requires OwnAt(n, h) && n.handlers[h].uuid.time == s && True(n.cells, s, ask) && !n.handlers[h].ptr.Detached?
    ensures Loyal(h, s, ask, Wake(n, h, env, draw))
  {
    hide True;
    hide L.Deref;
    hide Winners;
    hide Translations;
    if L.Deref(n.cells, n.handlers[h].ptr).Some? {
      DerefMeets(n.cells, n.slot, n.handlers[h].ptr, s, ask);
    }
  }

  // ---- One step of a node ----

  ghost predicate AllAnchored(n: Node, s: Time)
  {
    forall i | 0 <= i < |n.handlers| && n.handlers[i].uuid.time == s :: Anchored(n.handlers[i])
  }

  /** A node on which session s is as it was asked for. */
  ghost predicate NodeTrue(n: Node, s: Time, ask: Ask)
  {
    True(n.cells, s, ask) && AllAnchored(n, s)
  }

  lemma RenameAnchored(n: Node, id: Id, s: Time)
    requires Index(n) && id != SENTINEL && AllAnchored(n, s)
    ensures Renamed(n, id).Some? && AllAnchored(Renamed(n, id).value, s)
  {
    StoredBelow(n);
    if exists k :: Elsewhere(n, id, k) {
      var other :| Elsewhere(n, id, other);
      RenamingKeepsIndex(n, id, other);
      StoredPlaced(n, other);
    }
  }

  lemma LocateAnchored(n: Node, env: Env, m: Message, s: Time)
    requires Index(n) && m.id != SENTINEL && AllAnchored(n, s)
    ensures var place := Locate(n, env, m);
            && (place.Nowhere? ==> AllAnchored(place.node, s))
            && (place.Found? ==> AllAnchored(place.node, s))
  {
    hide Renamed;
    hide Keys;
    hide AllAnchored;
    RenameAnchored(n, m.id, s);
    RenameKeepsIndex(n, m.id);
    RenameAnchored(Renamed(n, m.id).value, m.id, s);
    if m.id in n.table {
      TranslationFits(n, m.id);
      RenameAnchored(n, n.table[m.id], s);
    }
  }

  lemma RoutingAnchored(n: Node, env: Env, source: Byte, m: Message, s: Time)
    requires Index(n) && m.id != SENTINEL && AllAnchored(n, s)
    ensures var route := Routed(n, env, source, m);
            && (route.Discarded? ==> AllAnchored(route.node, s))
            && (route.Handed? ==> AllAnchored(route.node, s))
  {
    hide Locate;
    hide Index;
    LocateAnchored(n, env, m, s);
    LocateKeepsIndex(n, env, m);
  }

  lemma ArrivalIsLoyal(n: Node, env: Env, source: Byte, m: Message, s: Time, ask: Ask)
    requires Invariant(n) && Sound(n, env, Arrival(source, m)) && Deliver(n, env, source, m).Done?
    requires NodeTrue(n, s, ask) && RefusesNothing(env.offer, ask.priority) && Consecutive(ask.caps)
    requires m.id.time == s && Honest(m, s, ask)
    ensures NodeTrue(Deliver(n, env, source, m).node, s, ask)
    ensures AllHonest(Deliver(n, env, source, m).outs, s, ask)
  {
    hide Routed;
    hide Routable;
    hide Handle;
    hide Index;
    hide Owned;
    hide Retired;
    hide True;
    hide Consecutive;
    RoutingKeepsIndex(n, env, source, m);
    RoutingIsConfined(n, env, source, m);
    RoutingKeepsCells(n, env, source, m);
    RoutingAnchored(n, env, source, m, s);
    var route := Routed(n, env, source, m);
    if route.Handed? {
      OwnedAt(route.node, route.h);
      HandleIsLoyal(route.node, route.h, env, m, s, ask);
      HandleElsewhere(route.node, route.h, env, m);
    }
  }

  lemma ExpiryIsLoyal(n: Node, h: nat, timer: Timer, s: Time, ask: Ask)
    requires Owned(n) && h < |n.handlers| && n.handlers[h].uuid.time == s && NodeTrue(n, s, ask)
    requires Expire(n, h, timer).Done?
    ensures NodeTrue(Expire(n, h, timer).node, s, ask)
  {
    hide True;
    hide L.Replenish;
    if L.Replenish(n.cells, n.handlers[h].ptr).Some? {
      ReplenishKeepsTrue(n.cells, n.slot, n.handlers[h].ptr, s, s, ask);
    }
  }

  lemma AwakeningIsLoyal(n: Node, h: nat, env: Env, draw: nat -> Entropy, s: Time, ask: Ask)
    requires Owned(n) && h < |n.handlers| && n.handlers[h].uuid.time == s && NodeTrue(n, s, ask)
    requires n.handlers[h].running && Wake(n, h, env, draw).Done?
    ensures NodeTrue(Wake(n, h, env, draw).node, s, ask)
    ensures AllHonest(Wake(n, h, env, draw).outs, s, ask)
  {
    hide True;
    hide Wake;
    OwnedAt(n, h);
    WakeIsLoyal(n, h, env, draw, s, ask);
    var k := WakeShape(n, h, env, draw);
  }

  lemma {:induction false} TrueOf(cells: Cells, s: Time, ask: Ask)
    ensures True(cells, s, ask) <==> forall c <- Only(cells, s) :: Meets(c.res, ask)
  {
    Rollback.OnlyMembers(cells, s);
  }

  lemma ElsewhereIsLoyal(n: Node, env: Env, e: Event, s: Time, ask: Ask)
    requires Invariant(n) && Sound(n, env, e) && Step(n, env, e).Done? && !Concerns(n, e, s)
    requires NodeTrue(n, s, ask)
    ensures NodeTrue(Step(n, env, e).node, s, ask) && AllHonest(Step(n, env, e).outs, s, ask)
  {
    hide Step;
    hide Sound;
    hide Index;
    hide Owned;
    hide Retired;
    hide True;
    hide Only;
    var n', t := Step(n, env, e).node, SomeSession(n, e);
    StepIsConfined(n, env, e, t);
    ConfinedSameFor(n, n', t, s);
    TrueOf(n.cells, s, ask);
    TrueOf(n'.cells, s, ask);
  }

  lemma StepIsLoyal(n: Node, env: Env, e: Event, s: Time, ask: Ask)
    requires Invariant(n) && Sound(n, env, e) && Step(n, env, e).Done?
    requires NodeTrue(n, s, ask) && RefusesNothing(env.offer, ask.priority) && Consecutive(ask.caps)
    requires e.Arrival? ==> Honest(e.msg, s, ask)
    ensures NodeTrue(Step(n, env, e).node, s, ask) && AllHonest(Step(n, env, e).outs, s, ask)
  {
    hide Deliver;
    hide Wake;
    hide Expire;
    hide Index;
    hide Owned;
    hide Retired;
    hide True;
    hide AllAnchored;
    hide Consecutive;
    if Concerns(n, e, s) {
      match e
      case Arrival(source, m) => ArrivalIsLoyal(n, env, source, m, s, ask);
      case Timeout(h, timer) =>
        if h < |n.handlers| {
          ExpiryIsLoyal(n, h, timer, s, ask);
          ExpireIsConfined(n, h, timer);
        }
      case Awakening(h, draw) =>
        if h < |n.handlers| && n.handlers[h].running {
          AwakeningIsLoyal(n, h, env, draw, s, ask);
        }
      case OriginMark(_) => MarkIsLoyal(n, e, s);
    } else {
      ElsewhereIsLoyal(n, env, e, s, ask);
    }
  }

  lemma MarkIsLoyal(n: Node, e: Event, s: Time)
    requires e.OriginMark? && AllAnchored(n, s)
    ensures AllAnchored(n.(origins := n.origins + {e.id}), s)
  {
  }

  // ---- Whole networks ----

  /** What enters the network from outside for session s is what was asked; and no node bids for a
      request without requirements. */
  ghost predicate Asked(history: seq<Record>, s: Time, ask: Ask)
  {
    forall j | 0 <= j < |history| ::
      && RefusesNothing(history[j].env.offer, ask.priority)
      && (history[j].event.Arrival? && history[j].cause.Injected? ==> Honest(history[j].event.msg, s, ask))
  }

  lemma {:induction false} StatesAreTrue(wired: Wiring, history: seq<Record>, place: nat, j: nat, s: Time, ask: Ask)
    requires Legal(wired, history) && Asked(history, s, ask) && Consecutive(ask.caps) && j <= |history|
    ensures NodeTrue(StateOf(history[..j], place), s, ask)
    decreases j, 0
  {
    hide Step;
    hide Sound;
    hide NodeTrue;
    hide Consecutive;
    if j == 0 {
      InitialTrue(s, ask);
    } else {
      assert history[..j][..j - 1] == history[..j - 1];
      StatesAreTrue(wired, history, place, j - 1, s, ask);
      if history[j - 1].place == place {
        RecordIsHonest(wired, history, j - 1, s, ask);
      }
    }
  }

  lemma InitialTrue(s: Time, ask: Ask)
    ensures NodeTrue(INITIAL_NODE, s, ask)
  {
  }

  /** In every history of a network, whatever is lost, repeated, overtaken, timed out or auctioned:
      every EAR and MAR of the session that is ever sent carries the priority and the listener of the
      request and either its exact requirements or none, and every ledger entry of the session, at
      every node, is for just that request. */
  lemma {:induction false} RecordIsHonest(wired: Wiring, history: seq<Record>, j: nat, s: Time, ask: Ask)
    requires Legal(wired, history) && Asked(history, s, ask) && Consecutive(ask.caps) && j < |history|
    ensures AllHonest(history[j].outs, s, ask)
    ensures NodeTrue(history[j].after, s, ask)
    decreases j, 1
  {
    hide Step;
    hide Sound;
    hide Invariant;
    hide NodeTrue;
    hide Consecutive;
    hide RefusesNothing;
    var r := history[j];
    StatesAreSound(wired, history, r.place, j);
    StatesAreTrue(wired, history, r.place, j, s, ask);
    if r.event.Arrival? && r.cause.SentBy? {
      RecordIsHonest(wired, history, r.cause.record, s, ask);
    }
    StepIsLoyal(r.before, r.env, r.event, s, ask);
  }

  /** So wherever an acceptance reserves, it reserves what was asked at the origin. */
  lemma ReservedAsAsked(wired: Wiring, history: seq<Record>, j: nat, k: nat, s: Time, ask: Ask) returns (i: nat)
    requires Legal(wired, history) && Asked(history, s, ask) && Consecutive(ask.caps) && j < |history|
    requires k < |history[j].outs| && Accepting(history[j].outs[k]) && SessionOf(history[j].outs[k]) == s
    ensures ReservesAt(history[j].before.cells, history[j].after.cells, s, i)
    ensures Meets(history[j].after.cells[i].res, ask)
  {
    hide Step;
    hide Sound;
    hide Invariant;
    hide Consecutive;
    var r := history[j];
    StatesAreSound(wired, history, r.place, j);
    StepReserves(r.before, r.env, r.event);
    OutputStays(r.before, r.env, r.event, k);
    RecordIsHonest(wired, history, j, s, ask);
    i :| ReservesAt(r.before.cells, r.after.cells, s, i);
  }
}
