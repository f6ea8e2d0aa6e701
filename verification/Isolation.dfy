/** Sessions do not touch each other: a step of one session leaves the handlers, keys, translations
    and ledger entries of every other session exactly as they were. */
module Isolation {
  import opened Basics
  import opened Identifiers
  import opened Capabilities
  import opened Auction
  import opened Protocol
  import opened Handlers
  import opened Processes
  import opened Sessions
  import L = Ledger

  type Cells = seq<L.Cell<nat>>

  function TimeOf(c: L.Cell<nat>): Time
  {
    c.res.uuid.time
  }

  // ---- What a session's operations may do to the ledger ----

  /** Cells keep their place and address; only cells of session s change, and only such are added, at
      addresses not used before. */
  ghost predicate Evolves(cells: Cells, slot: nat, cells': Cells, slot': nat, s: Time)
  {
    && |cells| <= |cells'| && slot <= slot'
    && (forall i | 0 <= i < |cells| ::
          cells'[i].addr == cells[i].addr && (cells'[i] == cells[i] || TimeOf(cells[i]) == TimeOf(cells'[i]) == s))
    && (forall i | |cells| <= i < |cells'| :: slot <= cells'[i].addr < slot' && TimeOf(cells'[i]) == s)
    && (forall i, j | |cells| <= i < j < |cells'| :: cells'[i].addr != cells'[j].addr)
  }

  ghost predicate Addressed(cells: Cells, slot: nat)
  {
    L.Distinct(cells) && forall i | 0 <= i < |cells| :: cells[i].addr < slot
  }

  /** A pointer held by session s: what it aliases, or owns, belongs to s. */
  ghost predicate Own(cells: Cells, slot: nat, p: Pointer, s: Time)
  {
    && (p.Entry? ==> p.addr < slot && forall i | 0 <= i < |cells| && cells[i].addr == p.addr :: TimeOf(cells[i]) == s)
    && (p.Detached? ==> p.res.uuid.time == s)
  }

  lemma EvolvesTransitive(a: Cells, i: nat, b: Cells, j: nat, c: Cells, k: nat, s: Time)
    requires Evolves(a, i, b, j, s) && Evolves(b, j, c, k, s)
    ensures Evolves(a, i, c, k, s)
  {
  }

  lemma EvolvesAddressed(cells: Cells, slot: nat, cells': Cells, slot': nat, s: Time)
    requires Addressed(cells, slot) && Evolves(cells, slot, cells', slot', s)
    ensures Addressed(cells', slot')
  {
  }

  /** The pointers of all sessions stay theirs. */
  lemma EvolvesOwn(cells: Cells, slot: nat, cells': Cells, slot': nat, s: Time, p: Pointer, t: Time)
    requires Evolves(cells, slot, cells', slot', s) && Own(cells, slot, p, t)
    ensures Own(cells', slot', p, t)
  {
  }

  lemma DerefOwn(cells: Cells, slot: nat, p: Pointer, s: Time)
    requires Own(cells, slot, p, s) && L.Deref(cells, p).Some?
    ensures L.Deref(cells, p).value.uuid.time == s
  {
  }

  lemma StoreEvolves(cells: Cells, slot: nat, p: Pointer, r: L.Reservation, s: Time)
    requires Own(cells, slot, p, s) && r.uuid.time == s
    ensures Evolves(cells, slot, L.Store(cells, p, r), slot, s)
    ensures Own(L.Store(cells, p, r), slot, L.Repoint(p, r), s)
  {
  }

  lemma AdoptEvolves(cells: Cells, slot: nat, id: Id)
    requires Addressed(cells, slot)
    ensures Evolves(cells, slot, L.Adopt(cells, id), slot, id.time)
    ensures Own(L.Adopt(cells, id), slot, L.Adopted(cells, id), id.time)
  {
  }

  lemma PushEvolves(cells: Cells, slot: nat, r: L.Reservation, s: Time)
    requires Addressed(cells, slot) && r.uuid.time == s
    ensures Evolves(cells, slot, cells + [L.Cell(slot, r)], slot + 1, s)
    ensures Own(cells + [L.Cell(slot, r)], slot + 1, L.Entry(slot), s)
  {
  }

  lemma AdmitEvolves(cells: Cells, slot: nat, p: Pointer, priority: Byte, offer: L.Offer, s: Time)
    requires Addressed(cells, slot) && Own(cells, slot, p, s)
    ensures var a := L.Admit(cells, p, priority, offer, slot);
            && (a.Refused? ==> Evolves(cells, slot, a.cells, slot, s) && Own(a.cells, slot, a.ptr, s))
            && (a.Accepted? ==> Evolves(cells, slot, a.cells, slot + 1, s) && Own(a.cells, slot + 1, a.ptr, s)
                                && Own(a.cells, slot + 1, L.Entry(slot), s))
  {
    if L.Deref(cells, p).Some? {
      DerefOwn(cells, slot, p, s);
      var r := L.Deref(cells, p).value;
      var offered := offer(r.caps, priority);
      if offered.Some? {
        var r' := r.(priority := priority, bid := offered.value);
        StoreEvolves(cells, slot, p, r', s);
        var stored := L.Store(cells, p, r');
        EvolvesAddressed(cells, slot, stored, slot, s);
        PushEvolves(stored, slot, L.Copy(r'), s);
        var pushed := stored + [L.Cell(slot, L.Copy(r'))];
        EvolvesTransitive(cells, slot, stored, slot, pushed, slot + 1, s);
        EvolvesOwn(stored, slot, pushed, slot + 1, s, L.Repoint(p, r'), s);
      }
    }
  }

  lemma MarkReservedEvolves(cells: Cells, slot: nat, p: Pointer, s: Time)
    requires Own(cells, slot, p, s) && L.MarkReserved(cells, p).Some?
    ensures Evolves(cells, slot, L.MarkReserved(cells, p).value.cells, slot, s)
  {
    hide SameKinds;
  }

  lemma MarkPreReservedEvolves(cells: Cells, slot: nat, p: Pointer, s: Time)
    requires Addressed(cells, slot) && Own(cells, slot, p, s) && L.MarkPreReserved(cells, p, slot).Some?
    ensures var marked := L.MarkPreReserved(cells, p, slot).value;
            Evolves(cells, slot, marked.cells, slot + 1, s) && Own(marked.cells, slot + 1, marked.ptr, s)
  {
    hide SameKinds;
    DerefOwn(cells, slot, p, s);
    var r := L.Deref(cells, p).value;
    PushEvolves(cells, slot, L.Copy(r), s);
  }

  lemma {:induction false} LastOfOwn(cells: Cells, slot: nat, id: Id, p: Pointer)
    requires Addressed(cells, slot) && Own(cells, slot, p, id.time)
    ensures Own(cells, slot, L.LastOf(cells, id, p), id.time)
  {
    LastOfIs(cells, id, p);
  }

  lemma {:induction false} LastOfIs(cells: Cells, id: Id, p: Pointer)
    ensures var q := L.LastOf(cells, id, p);
            q == p || exists i | 0 <= i < |cells| :: q == L.Entry(cells[i].addr) && cells[i].res.uuid == id
  {
    if cells != [] && cells[|cells| - 1].res.uuid != id {
      LastOfIs(cells[..|cells| - 1], id, p);
    }
  }

  // ---- What a handler's step may do ----

  ghost predicate OwnAt(n: Node, h: nat)
  {
    h < |n.handlers| && Addressed(n.cells, n.slot) && Own(n.cells, n.slot, n.handlers[h].ptr, n.handlers[h].uuid.time)
  }

  function SessionOf(o: Out): Time
  {
    match o
    case Send(m, _) => m.id.time
    case Report(_, id) => id.time
  }

  ghost predicate Speaks(outs: seq<Out>, s: Time)
  {
    forall i | 0 <= i < |outs| :: SessionOf(outs[i]) == s
  }

  /** A finished step of handler h stays within its session s: its ledger entries, its pointer and
      what it sends. */
  ghost predicate Tame(n: Node, h: nat, s: Time, o: Outcome)
  {
    o.Done? ==>
      && h < |o.node.handlers| && o.node.handlers[h].uuid.time == s
      && Evolves(n.cells, n.slot, o.node.cells, o.node.slot, s)
      && Own(o.node.cells, o.node.slot, o.node.handlers[h].ptr, s)
      && Speaks(o.outs, s)
  }

  /** A tame step after some tame preparation is tame. */
  lemma TameAfter(n: Node, n': Node, h: nat, s: Time, o: Outcome)
    requires Evolves(n.cells, n.slot, n'.cells, n'.slot, s) && Tame(n', h, s, o)
    ensures Tame(n, h, s, o)
  {
    if o.Done? {
      EvolvesTransitive(n.cells, n.slot, n'.cells, n'.slot, o.node.cells, o.node.slot, s);
    }
  }

  lemma ResumedIsOwn(n: Node, h: nat)
    requires h < |n.handlers| && Addressed(n.cells, n.slot)
    ensures var n', s := Resumed(n, h), n.handlers[h].uuid.time;
            Evolves(n.cells, n.slot, n'.cells, n'.slot, s) && OwnAt(n', h) && n'.handlers[h].uuid.time == s
  {
    AdoptEvolves(n.cells, n.slot, n.handlers[h].uuid);
    EvolvesAddressed(n.cells, n.slot, L.Adopt(n.cells, n.handlers[h].uuid), n.slot, n.handlers[h].uuid.time);
  }

  lemma ForwardIsTame(n: Node, h: nat, env: Env, listener: Byte)
    requires OwnAt(n, h)
    ensures Tame(n, h, n.handlers[h].uuid.time, Forward(n, h, env, listener))
  {
    var hd := n.handlers[h];
    if L.Deref(n.cells, hd.ptr).Some? && hd.source.Some? {
      DerefOwn(n.cells, n.slot, hd.ptr, hd.uuid.time);
      StoreEvolves(n.cells, n.slot, hd.ptr, L.Deref(n.cells, hd.ptr).value.(past := Some(hd.source.value)), hd.uuid.time);
    }
  }

  lemma AcceptIsTame(n: Node, h: nat, env: Env, position: nat)
    requires OwnAt(n, h) && Own(n.cells, n.slot, L.Entry(position), n.handlers[h].uuid.time)
    ensures Tame(n, h, n.handlers[h].uuid.time, Accept(n, h, env, position))
  {
    hide L.MarkReserved;
    if L.MarkReserved(n.cells, L.Entry(position)).Some? {
      var s := n.handlers[h].uuid.time;
      MarkReservedEvolves(n.cells, n.slot, L.Entry(position), s);
      EvolvesOwn(n.cells, n.slot, L.MarkReserved(n.cells, L.Entry(position)).value.cells, n.slot, s, L.Entry(position), s);
    }
  }

  lemma AtListenerIsTame(n: Node, h: nat, env: Env, priority: Byte)
    requires OwnAt(n, h)
    ensures Tame(n, h, n.handlers[h].uuid.time, EarAtListener(n, h, env, priority))
  {
    hide Accept;
    hide L.Admit;
    var hd := n.handlers[h];
    var s := hd.uuid.time;
    AdmitEvolves(n.cells, n.slot, hd.ptr, priority, env.offer, s);
    match Admitted(n, h, priority, env)
    case Fault =>
    case Refused(_, _) =>
    case Accepted(cells, _) =>
      var n' := n.(cells := cells, slot := n.slot + 1);
      EvolvesAddressed(n.cells, n.slot, cells, n.slot + 1, s);
      EvolvesOwn(n.cells, n.slot, cells, n.slot + 1, s, hd.ptr, s);
      AcceptIsTame(n', h, env, n.slot);
      TameAfter(n, n', h, s, Accept(n', h, env, n.slot));
  }

  lemma AtRelayIsTame(n: Node, h: nat, env: Env, m: Message)
    requires OwnAt(n, h) && m.EAR?
    ensures Tame(n, h, n.handlers[h].uuid.time, EarAtRelay(n, h, env, m))
  {
    hide Forward;
    hide L.Admit;
    hide L.MarkPreReserved;
    var hd := n.handlers[h];
    var s := hd.uuid.time;
    AdmitEvolves(n.cells, n.slot, hd.ptr, m.priority, env.offer, s);
    match Admitted(n, h, m.priority, env)
    case Fault =>
    case Refused(_, _) =>
    case Accepted(cells, ptr) =>
      EvolvesAddressed(n.cells, n.slot, cells, n.slot + 1, s);
      var marking := L.MarkPreReserved(cells, ptr, n.slot + 1);
      if marking.Some? {
        var marked := marking.value;
        MarkPreReservedEvolves(cells, n.slot + 1, ptr, s);
        EvolvesTransitive(n.cells, n.slot, cells, n.slot + 1, marked.cells, n.slot + 2, s);
        EvolvesAddressed(n.cells, n.slot, marked.cells, n.slot + 2, s);
        var n' := Put(n.(cells := marked.cells, slot := n.slot + 2), h, hd.(ptr := marked.ptr));
        ForwardIsTame(n', h, env, m.listener);
        TameAfter(n, n', h, s, Forward(n', h, env, m.listener));
      }
  }

  lemma EarIsTame(n0: Node, h: nat, env: Env, m: Message)
    requires OwnAt(n0, h) && m.EAR?
    ensures Tame(n0, h, n0.handlers[h].uuid.time, HandleEar(n0, h, env, m))
  {
    hide Forward;
    hide EarAtListener;
    hide EarAtRelay;
    ResumedIsOwn(n0, h);
    var n := Resumed(n0, h);
    var hd := n.handlers[h];
    var s := hd.uuid.time;
    if hd.state == PreReserved || !m.payload.Malformed? {
      var hd' := if hd.state == PreReserved then hd
                 else hd.(state := Assessing,
                          ptr := L.Detached(Statement(hd.uuid, m.priority, Requested(m.payload), m.listener)));
      var n' := Put(n, h, hd');
      if env.isMe(m.listener) {
        AtListenerIsTame(n', h, env, m.priority);
      } else if HasBid(n', m.id) {
        LastOfOwn(n'.cells, n'.slot, hd'.uuid, hd'.ptr);
        ForwardIsTame(Put(n', h, hd'.(ptr := L.LastOf(n'.cells, hd'.uuid, hd'.ptr))), h, env, m.listener);
      } else {
        AtRelayIsTame(n', h, env, m);
      }
      TameAfter(n0, n', h, s, HandleEar(n0, h, env, m));
    }
  }

  lemma StatementIsOwn(cells: Cells, slot: nat, r: L.Reservation)
    ensures Own(cells, slot, L.Detached(r), r.uuid.time)
  {
  }

  lemma MarIsTame(n0: Node, h: nat, env: Env, m: Message)
    requires OwnAt(n0, h) && m.MAR?
    ensures Tame(n0, h, n0.handlers[h].uuid.time, HandleMar(n0, h, env, m))
  {
    hide L.Admit;
    hide L.MarkPreReserved;
    hide Evolves;
    hide Own;
    hide Addressed;
    ResumedIsOwn(n0, h);
    var n := Resumed(n0, h);
    var hd := n.handlers[h];
    var s := hd.uuid.time;
    StatementIsOwn(n.cells, n.slot, Statement(hd.uuid, m.priority, Requested(m.payload), m.listener));
    var ptr: Pointer := L.Detached(Statement(hd.uuid, m.priority, Requested(m.payload), m.listener));
    AdmitEvolves(n.cells, n.slot, ptr, m.priority, env.offer, s);
    match L.Admit(n.cells, ptr, m.priority, env.offer, n.slot)
    case Fault =>
    case Refused(cells, _) =>
      EvolvesTransitive(n0.cells, n0.slot, n.cells, n.slot, cells, n.slot, s);
    case Accepted(cells, _) =>
      EvolvesAddressed(n.cells, n.slot, cells, n.slot + 1, s);
      EvolvesTransitive(n0.cells, n0.slot, n.cells, n.slot, cells, n.slot + 1, s);
      if L.MarkPreReserved(cells, L.Entry(n.slot), n.slot + 1).Some? {
        MarkPreReservedEvolves(cells, n.slot + 1, L.Entry(n.slot), s);
        var marked := L.MarkPreReserved(cells, L.Entry(n.slot), n.slot + 1).value;
        EvolvesTransitive(n0.cells, n0.slot, cells, n.slot + 1, marked.cells, n.slot + 2, s);
      }
  }

  lemma BidIsTame(n: Node, h: nat, m: Message)
    requires OwnAt(n, h) && m.BID?
    ensures Tame(n, h, n.handlers[h].uuid.time, HandleBid(n, h, m))
  {
    ResumedIsOwn(n, h);
  }

  lemma RepIsTame(n: Node, h: nat, env: Env, m: Message)
    requires OwnAt(n, h) && m.REP?
    ensures Tame(n, h, n.handlers[h].uuid.time, HandleRep(n, h, env, m))
  {
    hide L.Adopt;
    hide L.Adopted;
    ResumedIsOwn(n, h);
  }

  lemma LinkedIsTame(n: Node, h: nat, outs: seq<Out>)
    requires OwnAt(n, h) && Speaks(outs, n.handlers[h].uuid.time)
    ensures Tame(n, h, n.handlers[h].uuid.time, Done(Linked(n, h), outs))
  {
    var hd := n.handlers[h];
    if L.Deref(n.cells, hd.ptr).Some? && hd.source.Some? {
      var r := L.Deref(n.cells, hd.ptr).value;
      DerefOwn(n.cells, n.slot, hd.ptr, hd.uuid.time);
      StoreEvolves(n.cells, n.slot, hd.ptr, r.(next := r.next + [hd.source.value]), hd.uuid.time);
      if hd.ptr.Entry? {
        EvolvesOwn(n.cells, n.slot, Linked(n, h).cells, n.slot, hd.uuid.time, hd.ptr, hd.uuid.time);
      }
    }
  }

  lemma PassAcceptIsTame(n: Node, h: nat, env: Env)
    requires OwnAt(n, h)
    ensures Tame(n, h, n.handlers[h].uuid.time, PassAccept(n, h, env))
  {
    hide Linked;
    hide L.Deref;
    var r := L.Deref(n.cells, n.handlers[h].ptr);
    if r.Some? && r.value.past.Some? {
      var port := Port(env.topology, r.value.past.value);
      if port.Some? {
        LinkedIsTame(n, h, [Send(ACC(n.handlers[h].uuid), port.value)]);
      }
    }
  }

  lemma AccIsTame(n0: Node, h: nat, env: Env)
    requires OwnAt(n0, h)
    requires n0.handlers[h].uuid in n0.table ==> n0.table[n0.handlers[h].uuid].time == n0.handlers[h].uuid.time
    ensures Tame(n0, h, n0.handlers[h].uuid.time, HandleAcc(n0, h, env))
  {
    hide Linked;
    hide PassAccept;
    hide L.MarkReserved;
    ResumedIsOwn(n0, h);
    var n := Resumed(n0, h);
    var hd := n.handlers[h];
    var s := hd.uuid.time;
    if L.MarkReserved(n.cells, hd.ptr).Some? {
      var cells := L.MarkReserved(n.cells, hd.ptr).value.cells;
      var n' := n.(cells := cells);
      MarkReservedEvolves(n.cells, n.slot, hd.ptr, s);
      EvolvesAddressed(n.cells, n.slot, cells, n.slot, s);
      EvolvesOwn(n.cells, n.slot, cells, n.slot, s, hd.ptr, s);
      EvolvesTransitive(n0.cells, n0.slot, n.cells, n.slot, cells, n.slot, s);
      PassAcceptIsTame(n', h, env);
      LinkedIsTame(n', h, [Report(true, hd.uuid)]);
      if hd.uuid in n.table && Rekeyed(n', h, n.table[hd.uuid]).Some? {
        PassAcceptIsTame(Rekeyed(n', h, n.table[hd.uuid]).value, h, env);
      }
      if hd.state != Reserved {
        TameAfter(n0, n', h, s, HandleAcc(n0, h, env));
      }
    }
  }

  lemma RefIsTame(n: Node, h: nat, env: Env)
    requires OwnAt(n, h)
    requires n.handlers[h].uuid in n.table ==> n.table[n.handlers[h].uuid].time == n.handlers[h].uuid.time
    ensures Tame(n, h, n.handlers[h].uuid.time, HandleRef(n, h, env))
  {
    hide L.Adopt;
    hide L.Adopted;
    hide L.Deref;
    ResumedIsOwn(n, h);
  }

  lemma HandleIsTame(n: Node, h: nat, env: Env, m: Message)
    requires OwnAt(n, h)
    requires n.handlers[h].uuid in n.table ==> n.table[n.handlers[h].uuid].time == n.handlers[h].uuid.time
    ensures Tame(n, h, n.handlers[h].uuid.time, Handle(n, h, env, m))
  {
    hide HandleEar;
    hide HandleMar;
    hide HandleBid;
    hide HandleAcc;
    hide HandleRef;
    hide HandleRep;
    hide OwnAt;
    hide Tame;
    match m
    case EAR(_, _, _, _) => EarIsTame(n, h, env, m);
    case MAR(_, _, _, _) => MarIsTame(n, h, env, m);
    case BID(_, _) => BidIsTame(n, h, m);
    case ACC(_) => AccIsTame(n, h, env);
    case REF(_) => RefIsTame(n, h, env);
    case REP(_, _) => RepIsTame(n, h, env, m);
  }

  lemma WakeIsTame(n: Node, h: nat, env: Env, draw: nat -> Entropy)
    requires OwnAt(n, h)
    ensures Tame(n, h, n.handlers[h].uuid.time, Wake(n, h, env, draw))
  {
    hide L.Deref;
    hide Winners;
    hide Translations;
  }

  // ---- The rest of the ledger ----

  /** The cells that are not of session s, in order. */
  function Without(cells: Cells, s: Time): Cells
  {
    if cells == [] then []
    else
      var front, last := cells[..|cells| - 1], cells[|cells| - 1];
      Without(front, s) + if TimeOf(last) == s then [] else [last]
  }

  lemma {:induction false} WithoutConcat(a: Cells, b: Cells, s: Time)
    ensures Without(a + b, s) == Without(a, s) + Without(b, s)
  {
    if b == [] {
      assert a + b == a;
    } else {
      var front := b[..|b| - 1];
      assert (a + b)[..|a + b| - 1] == a + front;
      WithoutConcat(a, front, s);
    }
  }

  lemma {:induction false} WithoutOwn(cells: Cells, s: Time)
    requires forall i | 0 <= i < |cells| :: TimeOf(cells[i]) == s
    ensures Without(cells, s) == []
  {
    if cells != [] {
      WithoutOwn(cells[..|cells| - 1], s);
    }
  }

  /** Whatever a session's operations do, the other entries stay what and where they were. */
  lemma {:induction false} WithoutChanged(cells: Cells, cells': Cells, s: Time)
    requires |cells'| == |cells|
    requires forall i | 0 <= i < |cells| :: cells'[i] == cells[i] || TimeOf(cells[i]) == TimeOf(cells'[i]) == s
    ensures Without(cells', s) == Without(cells, s)
  {
    if cells != [] {
      WithoutChanged(cells[..|cells| - 1], cells'[..|cells| - 1], s);
    }
  }

  lemma {:induction false} EvolvesFrame(cells: Cells, slot: nat, cells': Cells, slot': nat, s: Time)
    requires Evolves(cells, slot, cells', slot', s)
    ensures Without(cells', s) == Without(cells, s)
  {
    hide Without;
    var kept, added := cells'[..|cells|], cells'[|cells|..];
    WithoutChanged(cells, kept, s);
    WithoutOwn(added, s);
    WithoutConcat(kept, added, s);
    assert cells' == kept + added;
  }

  lemma {:induction false} EraseFrame(cells: Cells, i: nat, s: Time)
    requires i < |cells| && TimeOf(cells[i]) == s
    ensures Without(L.Erase(cells, i), s) == Without(cells, s)
  {
    assert cells == cells[..i] + [cells[i]] + cells[i + 1..];
    WithoutConcat(cells[..i], cells[i + 1..], s);
    WithoutConcat(cells[..i], [cells[i]], s);
    WithoutConcat(cells[..i] + [cells[i]], cells[i + 1..], s);
  }

  lemma ErasePointers(cells: Cells, i: nat, slot: nat)
    requires i < |cells| && Addressed(cells, slot)
    ensures Addressed(L.Erase(cells, i), slot)
    ensures forall p: Pointer, t: Time :: Own(cells, slot, p, t) ==> Own(L.Erase(cells, i), slot, p, t)
  {
    var cells' := L.Erase(cells, i);
    assert forall j | 0 <= j < |cells'| :: cells'[j] == cells[if j < i then j else j + 1];
  }

  lemma {:induction false} ReplenishFrame(cells: Cells, slot: nat, p: Pointer, s: Time)
    requires Addressed(cells, slot) && Own(cells, slot, p, s) && L.Replenish(cells, p).Some?
    ensures var cells' := L.Replenish(cells, p).value;
            && Without(cells', s) == Without(cells, s) && Addressed(cells', slot)
            && forall q: Pointer, t: Time :: Own(cells, slot, q, t) ==> Own(cells', slot, q, t)
  {
    hide SameKinds;
    hide Own;
    hide Addressed;
    DerefOwn(cells, slot, p, s);
    var r := L.Deref(cells, p).value;
    var i := L.EqualPosition(cells, r);
    var stored := L.Store(cells, p, r.(state := L.Cleared));
    StoreEvolves(cells, slot, p, r.(state := L.Cleared), s);
    EvolvesAddressed(cells, slot, stored, slot, s);
    EvolvesFrame(cells, slot, stored, slot, s);
    assert TimeOf(stored[i]) == s;
    EraseFrame(stored, i, s);
    ErasePointers(stored, i, slot);
    forall q: Pointer, t: Time | Own(cells, slot, q, t) ensures Own(L.Erase(stored, i), slot, q, t) {
      EvolvesOwn(cells, slot, stored, slot, s, q, t);
    }
  }

  // ---- The rest of the node ----

  /** The node but for its ledger: keys, translations, origin ids and handlers of other sessions are
      as before. */
  ghost predicate SameElsewhere(n: Node, n': Node, s: Time)
  {
    && (forall k: Id | k.time != s :: k in n'.store <==> k in n.store)
    && (forall k: Id | k.time != s && k in n.store :: n'.store[k] == n.store[k])
    && (forall k: Id | k.time != s :: k in n'.table <==> k in n.table)
    && (forall k: Id | k.time != s && k in n.table :: n'.table[k] == n.table[k])
    && (forall k: Id | k.time != s :: k in n'.origins <==> k in n.origins)
    && |n.handlers| <= |n'.handlers|
    && (forall i | 0 <= i < |n.handlers| ::
          n'.handlers[i] == n.handlers[i] || n.handlers[i].uuid.time == n'.handlers[i].uuid.time == s)
    && (forall i | |n.handlers| <= i < |n'.handlers| :: n'.handlers[i].uuid.time == s)
  }

  /** Every ledger address is unique, and every handler's pointer leads to its own session. */
  ghost predicate Owned(n: Node)
  {
    && Addressed(n.cells, n.slot)
    && forall i | 0 <= i < |n.handlers| :: Own(n.cells, n.slot, n.handlers[i].ptr, n.handlers[i].uuid.time)
  }

  /** A change that session s alone can see. */
  ghost predicate Confined(n: Node, n': Node, s: Time)
  {
    SameElsewhere(n, n', s) && Without(n'.cells, s) == Without(n.cells, s) && Owned(n')
  }

  lemma SameElsewhereTransitive(a: Node, b: Node, c: Node, s: Time)
    requires SameElsewhere(a, b, s) && SameElsewhere(b, c, s)
    ensures SameElsewhere(a, c, s)
  {
  }

  lemma ConfinedTransitive(a: Node, b: Node, c: Node, s: Time)
    requires Confined(a, b, s) && Confined(b, c, s)
    ensures Confined(a, c, s)
  {
    hide SameElsewhere;
    hide Owned;
    SameElsewhereTransitive(a, b, c, s);
  }

  lemma TameConfined(n: Node, h: nat, o: Outcome)
    requires Owned(n) && h < |n.handlers| && o.Done? && Tame(n, h, n.handlers[h].uuid.time, o)
    requires SameElsewhere(n, o.node, n.handlers[h].uuid.time)
    requires |o.node.handlers| == |n.handlers| && o.node.handlers == n.handlers[h := o.node.handlers[h]]
    ensures Confined(n, o.node, n.handlers[h].uuid.time)
  {
    hide Own;
    hide SameElsewhere;
    var s, n' := n.handlers[h].uuid.time, o.node;
    EvolvesFrame(n.cells, n.slot, n'.cells, n'.slot, s);
    EvolvesAddressed(n.cells, n.slot, n'.cells, n'.slot, s);
    forall i | 0 <= i < |n'.handlers| ensures Own(n'.cells, n'.slot, n'.handlers[i].ptr, n'.handlers[i].uuid.time) {
      if i != h {
        EvolvesOwn(n.cells, n.slot, n'.cells, n'.slot, s, n.handlers[i].ptr, n.handlers[i].uuid.time);
      }
    }
  }

  lemma LocalElsewhere(n: Node, h: nat, n': Node)
    requires h < |n.handlers| && Local(n, h, n')
    ensures SameElsewhere(n, n', n.handlers[h].uuid.time)
  {
  }

  /** What an ACC leaves of the node: at most the handler's own key moves, to its translation. */
  lemma AccShape(n0: Node, h: nat, env: Env)
    requires h < |n0.handlers| && HandleAcc(n0, h, env).Done?
    ensures var n', id := HandleAcc(n0, h, env).node, n0.handlers[h].uuid;
            && n'.table == n0.table && n'.origins == n0.origins
            && |n'.handlers| == |n0.handlers| && n'.handlers == n0.handlers[h := n'.handlers[h]]
            && ((n'.store == n0.store && n'.handlers[h].uuid == id)
                || (id in n0.table && n'.handlers[h].uuid == n0.table[id]
                    && n'.store.Keys <= n0.store.Keys + {n0.table[id]} && n'.store.Keys >= n0.store.Keys - {id}
                    && forall k <- n0.store.Keys - {id} :: n'.store[k] == n0.store[k]))
  {
    hide L.Adopt;
    hide L.Adopted;
    hide L.Deref;
    hide L.MarkReserved;
  }

  lemma HandleElsewhere(n: Node, h: nat, env: Env, m: Message)
    requires Acting(n, h) && Routable(n, h, env, m) && Handle(n, h, env, m).Done?
    ensures var n' := Handle(n, h, env, m).node;
            && SameElsewhere(n, n', n.handlers[h].uuid.time)
            && |n'.handlers| == |n.handlers| && n'.handlers == n.handlers[h := n'.handlers[h]]
  {
    hide HandleEar;
    hide HandleMar;
    hide HandleBid;
    hide HandleAcc;
    hide HandleRef;
    hide HandleRep;
    hide Routable;
    var n' := Handle(n, h, env, m).node;
    match m
    case EAR(_, _, _, _) => EarIsLocal(n, h, env, m); LocalElsewhere(n, h, n');
    case MAR(_, _, _, _) => MarIsLocal(n, h, env, m); LocalElsewhere(n, h, n');
    case BID(_, _) => BidIsLocal(n, h, m); LocalElsewhere(n, h, n');
    case ACC(_) => AccShape(n, h, env);
    case REF(_) => RefShapeOf(n, h, env, m);
    case REP(_, _) => RepIsLocal(n, h, env, m); LocalElsewhere(n, h, n');
  }

  lemma RefShapeOf(n: Node, h: nat, env: Env, m: Message)
    requires h < |n.handlers| && Routable(n, h, env, m) && m.REF? && HandleRef(n, h, env).Done?
    requires n.handlers[h].uuid in n.table ==> n.table[n.handlers[h].uuid].time == n.handlers[h].uuid.time
    ensures var n' := HandleRef(n, h, env).node;
            && SameElsewhere(n, n', n.handlers[h].uuid.time)
            && |n'.handlers| == |n.handlers| && n'.handlers == n.handlers[h := n'.handlers[h]]
  {
    hide HandleRef;
    RefShape(n, h, env);
    OwnKeyElsewhere(n, h, HandleRef(n, h, env).node);
  }

  lemma OwnKeyElsewhere(n: Node, h: nat, n': Node)
    requires h < |n.handlers|
    requires var id := n.handlers[h].uuid;
             && (n'.store == n.store || n'.store == n.store - {id})
             && (n'.table == n.table || n'.table == n.table - {id})
             && (n'.origins == n.origins || n'.origins == n.origins - {id})
             && |n'.handlers| == |n.handlers| && n'.handlers == n.handlers[h := n'.handlers[h]]
             && n'.handlers[h].uuid.time == id.time
    ensures SameElsewhere(n, n', n.handlers[h].uuid.time)
  {
  }

  lemma HandleIsConfined(n: Node, h: nat, env: Env, m: Message)
    requires Owned(n) && Acting(n, h) && Routable(n, h, env, m) && Handle(n, h, env, m).Done?
    ensures Confined(n, Handle(n, h, env, m).node, n.handlers[h].uuid.time)
    ensures Speaks(Handle(n, h, env, m).outs, n.handlers[h].uuid.time)
  {
    hide Handle;
    hide Own;
    hide Addressed;
    hide SameElsewhere;
    HandleIsTame(n, h, env, m);
    HandleElsewhere(n, h, env, m);
    TameConfined(n, h, Handle(n, h, env, m));
  }

  // ---- Routing ----

  lemma RenamingIsConfined(n: Node, id: Id)
    requires Owned(n) && Index(n) && id != SENTINEL
    ensures Renamed(n, id).Some? && Confined(n, Renamed(n, id).value, id.time)
  {
    hide Without;
    hide Own;
    StoredBelow(n);
    if exists k :: Elsewhere(n, id, k) {
      var other :| Elsewhere(n, id, other);
      OtherKeyOnly(n, id, other);
    }
    hide Index;
  }

  lemma LocateIsConfined(n: Node, env: Env, m: Message)
    requires Owned(n) && Index(n) && m.id != SENTINEL
    ensures var place := Locate(n, env, m);
            && (place.Nowhere? ==> Confined(n, place.node, m.id.time))
            && (place.Found? ==> Confined(n, place.node, m.id.time))
  {
    hide Renamed;
    hide Keys;
    hide SameElsewhere;
    hide Owned;
    Unchanged(n, m.id.time);
    RenamingIsConfined(n, m.id);
    RenameKeepsIndex(n, m.id);
    var n' := Renamed(n, m.id).value;
    OwnedAfter(n, n', m.id.time);
    RenamingIsConfined(n', m.id);
    ConfinedTransitive(n, n', Renamed(n', m.id).value, m.id.time);
    if m.id in n.table {
      TranslationFits(n, m.id);
      RenamingIsConfined(n, n.table[m.id]);
    }
  }

  lemma Unchanged(n: Node, s: Time)
    requires Owned(n)
    ensures Confined(n, n, s)
  {
  }

  lemma OwnedAfter(n: Node, n': Node, s: Time)
    requires Confined(n, n', s)
    ensures Owned(n')
  {
  }

  lemma PutIsConfined(n: Node, h: nat, hd: Handler)
    requires Owned(n) && h < |n.handlers|
    requires hd.uuid == n.handlers[h].uuid && hd.ptr == n.handlers[h].ptr
    ensures Confined(n, Put(n, h, hd), hd.uuid.time)
  {
    hide Own;
    hide Without;
  }

  lemma CreationIsConfined(n: Node, id: Id, hd: Handler)
    requires Owned(n) && hd.uuid == id && hd.ptr == L.Null
    ensures Confined(n, Put(Created(n, id), |n.handlers|, hd), id.time)
  {
    hide Without;
  }

  lemma RoutingIsConfined(n: Node, env: Env, source: Byte, m: Message)
    requires Owned(n) && Index(n) && m.id != SENTINEL
    ensures var route := Routed(n, env, source, m);
            && (route.Discarded? ==> Confined(n, route.node, m.id.time))
            && (route.Handed? ==> Confined(n, route.node, m.id.time))
  {
    hide Locate;
    hide Index;
    hide Confined;
    LocateIsConfined(n, env, m);
    LocateKeepsIndex(n, env, m);
    match Locate(n, env, m)
    case Nowhere(_) =>
    case Missing =>
    case Fresh =>
      CreationIsConfined(n, m.id, Marked(NewHandler(m.id), m, source));
    case Found(n', h) =>
      OwnedAfter(n, n', m.id.time);
      var k :| k in n'.store && n'.store[k] == h && k.time == m.id.time;
      StoredPlaced(n', k);
      var hd := n'.handlers[h];
      var bid := hd.(tally := Arrive(hd.tally, Bid(if m.BID? then m.value else 0.0, source)));
      PutIsConfined(n', h, bid);
      ConfinedTransitive(n, n', Put(n', h, bid), m.id.time);
      PutIsConfined(n', h, Marked(hd, m, source));
      ConfinedTransitive(n, n', Put(n', h, Marked(hd, m, source)), m.id.time);
  }

  // ---- Steps and runs ----

  lemma ExpireIsConfined(n: Node, h: nat, timer: Timer)
    requires Owned(n) && h < |n.handlers| && Expire(n, h, timer).Done?
    ensures Confined(n, Expire(n, h, timer).node, n.handlers[h].uuid.time)
    ensures Expire(n, h, timer).outs == []
  {
    hide Without;
    hide Own;
    hide Addressed;
    hide L.Replenish;
    var hd := n.handlers[h];
    if L.Replenish(n.cells, hd.ptr).Some? {
      ReplenishFrame(n.cells, n.slot, hd.ptr, hd.uuid.time);
    }
  }

  lemma {:induction false} TranslationsElsewhere(table: map<Id, Id>, original: Id, entropies: seq<Entropy>)
    ensures var table' := Translations(table, original, entropies);
            && (forall k <- table :: k in table' && table'[k] == table[k])
            && (forall k <- table' :: k in table || k.time == original.time)
  {
    if entropies != [] {
      TranslationsElsewhere(table, original, entropies[..|entropies| - 1]);
    }
  }

  lemma WakeIsConfined(n: Node, h: nat, env: Env, draw: nat -> Entropy)
    requires Owned(n) && h < |n.handlers| && Wake(n, h, env, draw).Done?
    ensures Confined(n, Wake(n, h, env, draw).node, n.handlers[h].uuid.time)
    ensures Speaks(Wake(n, h, env, draw).outs, n.handlers[h].uuid.time)
  {
    hide Wake;
    hide Own;
    hide Addressed;
    WakeIsTame(n, h, env, draw);
    var k := WakeShape(n, h, env, draw);
    TranslationsElsewhere(n.table, n.handlers[h].uuid, Drawn(draw, k));
    TameConfined(n, h, Wake(n, h, env, draw));
  }

  /** The session an event belongs to. */
  ghost predicate Concerns(n: Node, e: Event, s: Time)
  {
    match e
    case Arrival(_, m) => m.id.time == s
    case Timeout(h, _) => h < |n.handlers| ==> n.handlers[h].uuid.time == s
    case Awakening(h, _) => h < |n.handlers| ==> n.handlers[h].uuid.time == s
    case OriginMark(id) => id.time == s
  }

  /** An event of one session changes nothing that belongs to another: not its keys, translations,
      origin ids or handlers, and not one of its ledger entries, their order included; and it sends
      and reports only within its own session. */
  lemma StepIsConfined(n: Node, env: Env, e: Event, s: Time)
    requires Owned(n) && Index(n) && Sound(n, env, e) && Concerns(n, e, s) && Step(n, env, e).Done?
    ensures Confined(n, Step(n, env, e).node, s)
    ensures Speaks(Step(n, env, e).outs, s)
  {
    hide Expire;
    hide Wake;
    hide Handle;
    hide Routed;
    hide Routable;
    match e
    case Arrival(source, m) =>
      hide Index;
      hide Confined;
      RoutingKeepsIndex(n, env, source, m);
      RoutingIsConfined(n, env, source, m);
      var route := Routed(n, env, source, m);
      if route.Handed? {
        OwnedAfter(n, route.node, s);
        HandleIsConfined(route.node, route.h, env, m);
        ConfinedTransitive(n, route.node, Handle(route.node, route.h, env, m).node, s);
      }
    case Timeout(h, timer) =>
      hide Index;
      hide Confined;
      Unchanged(n, s);
      if h < |n.handlers| {
        ExpireIsConfined(n, h, timer);
      }
    case Awakening(h, draw) =>
      hide Index;
      hide Confined;
      Unchanged(n, s);
      if h < |n.handlers| && n.handlers[h].running {
        WakeIsConfined(n, h, env, draw);
      }
    case OriginMark(_) =>
      hide Own;
  }

  lemma {:induction false} OwnedInEveryRun(trace: seq<(Env, Event)>)
    requires SoundRun(INITIAL_NODE, trace) && Run(INITIAL_NODE, trace).Some?
    ensures Owned(Run(INITIAL_NODE, trace).value)
  {
    if trace != [] {
      var front, last := trace[..|trace| - 1], trace[|trace| - 1];
      assert forall i | 0 <= i < |front| :: front[..i] == trace[..i];
      OwnedInEveryRun(front);
      IndexInEveryRun(front);
      hide Step;
      hide Sound;
      hide Index;
      hide Owned;
      var n := Run(INITIAL_NODE, front).value;
      var s := SomeSession(n, last.1);
      StepIsConfined(n, last.0, last.1, s);
      OwnedAfter(n, Step(n, last.0, last.1).node, s);
    }
  }

  ghost function SomeSession(n: Node, e: Event): (s: Time)
    ensures Concerns(n, e, s)
  {
    match e
    case Arrival(_, m) => m.id.time
    case Timeout(h, _) => if h < |n.handlers| then n.handlers[h].uuid.time else 0
    case Awakening(h, _) => if h < |n.handlers| then n.handlers[h].uuid.time else 0
    case OriginMark(id) => id.time
  }

  /** The ledger entries of session t, in order. */
  function Only(cells: Cells, t: Time): Cells
  {
    if cells == [] then []
    else
      var front, last := cells[..|cells| - 1], cells[|cells| - 1];
      Only(front, t) + if TimeOf(last) == t then [last] else []
  }

  lemma {:induction false} OnlyWithout(cells: Cells, s: Time, t: Time)
    requires s != t
    ensures Only(Without(cells, s), t) == Only(cells, t)
  {
    if cells != [] {
      var front, last := cells[..|cells| - 1], cells[|cells| - 1];
      OnlyWithout(front, s, t);
      var w := Without(front, s);
      if TimeOf(last) == s {
        assert Without(cells, s) == w;
        assert Only(cells, t) == Only(front, t);
      } else {
        assert (w + [last])[..|w|] == w;
      }
    }
  }

  /** Two states of a node that session t cannot tell apart. */
  ghost predicate SameFor(n: Node, n': Node, t: Time)
  {
    && (forall k: Id | k.time == t :: k in n'.store <==> k in n.store)
    && (forall k: Id | k.time == t && k in n.store :: n'.store[k] == n.store[k])
    && (forall k: Id | k.time == t :: k in n'.table <==> k in n.table)
    && (forall k: Id | k.time == t && k in n.table :: n'.table[k] == n.table[k])
    && (forall k: Id | k.time == t :: k in n'.origins <==> k in n.origins)
    && |n.handlers| <= |n'.handlers|
    && (forall i | 0 <= i < |n.handlers| && n.handlers[i].uuid.time == t :: n'.handlers[i] == n.handlers[i])
    && (forall i | 0 <= i < |n'.handlers| && n'.handlers[i].uuid.time == t :: i < |n.handlers| && n'.handlers[i] == n.handlers[i])
    && Only(n'.cells, t) == Only(n.cells, t)
  }

  lemma ConfinedSameFor(n: Node, n': Node, s: Time, t: Time)
    requires Confined(n, n', s) && s != t
    ensures SameFor(n, n', t)
  {
    hide Owned;
    OnlyWithout(n.cells, s, t);
    OnlyWithout(n'.cells, s, t);
    hide Only;
    hide Without;
  }

  lemma SameForTransitive(a: Node, b: Node, c: Node, t: Time)
    requires SameFor(a, b, t) && SameFor(b, c, t)
    ensures SameFor(a, c, t)
  {
    hide Only;
  }

  /** From position i of the run on, no event concerns session t. */
  ghost predicate ForeignFrom(n: Node, trace: seq<(Env, Event)>, i: nat, t: Time)
  {
    forall j | i <= j < |trace| ::
      var before := Run(n, trace[..j]);
      before.Some? ==> exists s: Time :: s != t && Concerns(before.value, trace[j].1, s)
  }

  /** In every run: as long as only other sessions have events, session t keeps its keys, translations,
      origin ids, handlers and ledger entries, each in its place. */
  lemma {:induction false} SessionsAreIsolated(trace: seq<(Env, Event)>, i: nat, t: Time)
    requires i <= |trace| && SoundRun(INITIAL_NODE, trace) && ForeignFrom(INITIAL_NODE, trace, i, t)
    requires Run(INITIAL_NODE, trace).Some?
    ensures Run(INITIAL_NODE, trace[..i]).Some?
    ensures SameFor(Run(INITIAL_NODE, trace[..i]).value, Run(INITIAL_NODE, trace).value, t)
    decreases |trace|
  {
    if i == |trace| {
      assert trace[..i] == trace;
    } else {
      var front, last := trace[..|trace| - 1], trace[|trace| - 1];
      assert forall j | 0 <= j <= |front| :: front[..j] == trace[..j];
      SessionsAreIsolated(front, i, t);
      IndexInEveryRun(front);
      OwnedInEveryRun(front);
      hide Step;
      hide Sound;
      hide Index;
      hide Owned;
      hide Concerns;
      hide SameFor;
      hide Confined;
      var n := Run(INITIAL_NODE, front).value;
      var s: Time :| s != t && Concerns(n, last.1, s);
      StepIsConfined(n, last.0, last.1, s);
      var n' := Step(n, last.0, last.1).node;
      ConfinedSameFor(n, n', s, t);
      SameForTransitive(Run(INITIAL_NODE, trace[..i]).value, n, n', t);
    }
  }
}
