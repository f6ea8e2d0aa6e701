/** The store as an index of sessions, over whole runs of a node. */
module Sessions {
  import opened Basics
  import opened Identifiers
  import opened Auction
  import opened Protocol
  import opened Handlers
  import opened Processes
  import L = Ledger

  /** Where a handler may stand between two steps. */
  ghost predicate Settled(hd: Handler)
  {
    || hd.state == AuctionWaiting
    || hd.state == Closed
    || (!hd.running && (hd.state == PreReserved || hd.state == Reserved || hd.state == Replenishing))
  }

  /** Handler hd sits rightly under key k: same session always, same id unless it is closed. */
  ghost predicate Placed(hd: Handler, k: Id)
  {
    hd.uuid.time == k.time && (hd.state != Closed || hd.running ==> hd.uuid == k)
  }

  ghost predicate Keys(n: Node)
  {
    && (forall k <- n.store :: k != SENTINEL && n.store[k] < |n.handlers| && Placed(n.handlers[n.store[k]], k))
    && (forall j, k | j in n.store && k in n.store && j.time == k.time :: j == k)
    && (forall t <- n.table :: n.table[t].time == t.time && n.table[t] != SENTINEL)
    && (forall i | 0 <= i < |n.handlers| :: n.handlers[i].uuid != SENTINEL)
  }

  ghost predicate SettledBut(n: Node, h: nat)
  {
    forall i | 0 <= i < |n.handlers| && i != h :: Settled(n.handlers[i])
  }

  ghost predicate Index(n: Node)
  {
    Keys(n) && forall i | 0 <= i < |n.handlers| :: Settled(n.handlers[i])
  }

  /** Handler h is about to act: it is stored under its own id and its thread is not blocked. */
  ghost predicate Acting(n: Node, h: nat)
  {
    && Keys(n) && SettledBut(n, h) && h < |n.handlers|
    && n.handlers[h].uuid in n.store && n.store[n.handlers[h].uuid] == h && !n.handlers[h].running
  }

  /** The reservation a message to handler h works on. */
  ghost function Reservation(n: Node, h: nat): Option<L.Reservation>
    requires h < |n.handlers|
  {
    L.Deref(Resumed(n, h).cells, Resumed(n, h).handlers[h].ptr)
  }

  /** The addresses that this step looks up in the topology are there. */
  ghost predicate Routable(n: Node, h: nat, env: Env, m: Message)
    requires h < |n.handlers|
  {
    var hd, r := n.handlers[h], Reservation(n, h);
    && (m.REF? && RefusalPasses(n, hd.uuid) && hd.source.Some? ==> hd.source.value in env.topology)
    && (m.ACC? && hd.state != Reserved && AcceptancePasses(n, hd.uuid) && r.Some? && r.value.past.Some? ==>
          r.value.past.value in env.topology)
  }

  /** A handler of that id passes an acceptance on, and looks up its past node, unless it is the
      origin's and reports. */
  predicate AcceptancePasses(n: Node, id: Id)
  {
    id in n.table || id !in n.origins
  }

  /** A handler of that id passes a refusal on, and looks up its source, unless it is the origin's and
      reports, or drops its translation. */
  predicate RefusalPasses(n: Node, id: Id)
  {
    if id in n.table then n.table[id] in n.table - {id} else id !in n.origins
  }

  /** Nothing more is asked of the topology than the code looks up: where an address is missing, a
      step that completes sends nothing, reports nothing and leaves its handler's state as it was. */
  lemma UnroutableStops(n: Node, h: nat, env: Env, m: Message)
    requires h < |n.handlers| && !Routable(n, h, env, m) && Handle(n, h, env, m).Done?
    ensures Handle(n, h, env, m).outs == []
    ensures var n' := Handle(n, h, env, m).node;
            |n'.handlers| == |n.handlers| && n'.handlers[h].state == n.handlers[h].state
  {
    hide L.Adopt;
    hide L.Adopted;
    if m.REF? {
      UnroutableRefusal(n, h, env);
    } else {
      UnroutableAcceptance(n, h, env);
    }
  }

  lemma UnroutableRefusal(n: Node, h: nat, env: Env)
    requires h < |n.handlers| && RefusalPasses(n, n.handlers[h].uuid) && HandleRef(n, h, env).Done?
    requires n.handlers[h].source.Some? && n.handlers[h].source.value !in env.topology
    ensures HandleRef(n, h, env).outs == []
    ensures var n' := HandleRef(n, h, env).node;
            |n'.handlers| == |n.handlers| && n'.handlers[h].state == n.handlers[h].state
  {
    hide L.Adopt;
    hide L.Adopted;
    hide L.Deref;
    hide Erased;
    var resumed := Resumed(n, h);
    ErasedShape(resumed, resumed.handlers[h].uuid);
  }

  lemma UnroutableAcceptance(n: Node, h: nat, env: Env)
    requires h < |n.handlers| && AcceptancePasses(n, n.handlers[h].uuid) && HandleAcc(n, h, env).Done?
    requires n.handlers[h].state != Reserved
    requires var r := Reservation(n, h); r.Some? && r.value.past.Some? && r.value.past.value !in env.topology
    ensures HandleAcc(n, h, env).outs == []
    ensures var n' := HandleAcc(n, h, env).node;
            |n'.handlers| == |n.handlers| && n'.handlers[h].state == n.handlers[h].state
  {
    hide L.Adopt;
    hide L.Adopted;
    hide L.Deref;
    hide L.MarkReserved;
    var resumed := Resumed(n, h);
    if L.MarkReserved(resumed.cells, resumed.handlers[h].ptr).Some? {
      MarkedKeepsPast(resumed.cells, resumed.handlers[h].ptr);
    }
  }

  /** Only handler h changed, and it kept its id; store, table and origins are as before. */
  ghost predicate Local(n: Node, h: nat, n': Node)
    requires h < |n.handlers|
  {
    && n'.store == n.store && n'.table == n.table && n'.origins == n.origins
    && |n'.handlers| == |n.handlers| && n'.handlers == n.handlers[h := n'.handlers[h]]
    && n'.handlers[h].uuid == n.handlers[h].uuid
  }

  lemma LocalKeepsIndex(n: Node, h: nat, n': Node)
    requires Acting(n, h) && Local(n, h, n') && Settled(n'.handlers[h])
    ensures Index(n')
  {
  }

  // ---- Each handler case ----

  lemma ForwardIsLocal(n: Node, h: nat, env: Env, listener: Byte)
    requires h < |n.handlers| && !n.handlers[h].running
    requires Forward(n, h, env, listener).Done?
    ensures Local(n, h, Forward(n, h, env, listener).node)
    ensures Settled(Forward(n, h, env, listener).node.handlers[h])
  {
  }

  lemma AtListenerIsLocal(n: Node, h: nat, env: Env, priority: Byte)
    requires h < |n.handlers| && !n.handlers[h].running
    requires EarAtListener(n, h, env, priority).Done?
    ensures Local(n, h, EarAtListener(n, h, env, priority).node)
    ensures Settled(EarAtListener(n, h, env, priority).node.handlers[h])
  {
  }

  lemma AtRelayIsLocal(n: Node, h: nat, env: Env, m: Message)
    requires h < |n.handlers| && !n.handlers[h].running && m.EAR?
    requires EarAtRelay(n, h, env, m).Done?
    ensures Local(n, h, EarAtRelay(n, h, env, m).node)
    ensures Settled(EarAtRelay(n, h, env, m).node.handlers[h])
  {
    hide L.Admit;
    hide L.MarkPreReserved;
    hide Forward;
    match Admitted(n, h, m.priority, env)
    case Fault =>
    case Refused(_, _) =>
    case Accepted(cells, ptr) =>
      var marked := L.MarkPreReserved(cells, ptr, n.slot + 1).value;
      var n' := Put(n.(cells := marked.cells, slot := n.slot + 2), h, n.handlers[h].(ptr := marked.ptr));
      ForwardIsLocal(n', h, env, m.listener);
  }

  lemma EarIsLocal(n0: Node, h: nat, env: Env, m: Message)
    requires h < |n0.handlers| && m.EAR? && !n0.handlers[h].running
    requires HandleEar(n0, h, env, m).Done?
    ensures Local(n0, h, HandleEar(n0, h, env, m).node)
    ensures Settled(HandleEar(n0, h, env, m).node.handlers[h])
  {
    var n := Resumed(n0, h);
    var hd := n.handlers[h];
    if hd.state == PreReserved || !m.payload.Malformed? {
      var hd' := if hd.state == PreReserved then hd
                 else hd.(state := Assessing,
                          ptr := L.Detached(Statement(hd.uuid, m.priority, Requested(m.payload), m.listener)));
      var n' := Put(n, h, hd');
      hide Forward;
      hide EarAtListener;
      hide EarAtRelay;
      if env.isMe(m.listener) {
        AtListenerIsLocal(n', h, env, m.priority);
      } else if HasBid(n', m.id) {
        ForwardIsLocal(Put(n', h, hd'.(ptr := L.LastOf(n'.cells, hd'.uuid, hd'.ptr))), h, env, m.listener);
      } else {
        AtRelayIsLocal(n', h, env, m);
      }
    }
  }

  lemma MarIsLocal(n: Node, h: nat, env: Env, m: Message)
    requires h < |n.handlers| && m.MAR? && !n.handlers[h].running
    requires HandleMar(n, h, env, m).Done?
    ensures Local(n, h, HandleMar(n, h, env, m).node)
    ensures Settled(HandleMar(n, h, env, m).node.handlers[h])
  {
  }

  lemma BidIsLocal(n: Node, h: nat, m: Message)
    requires h < |n.handlers| && m.BID? && !n.handlers[h].running
    requires HandleBid(n, h, m).Done?
    ensures Local(n, h, HandleBid(n, h, m).node)
    ensures Settled(HandleBid(n, h, m).node.handlers[h])
  {
  }

  lemma RepIsLocal(n: Node, h: nat, env: Env, m: Message)
    requires h < |n.handlers| && m.REP? && !n.handlers[h].running
    requires HandleRep(n, h, env, m).Done?
    ensures Local(n, h, HandleRep(n, h, env, m).node)
    ensures Settled(HandleRep(n, h, env, m).node.handlers[h])
  {
  }

  lemma PassAcceptIsLocal(n: Node, h: nat, env: Env)
    requires h < |n.handlers| && !n.handlers[h].running
    requires PassAccept(n, h, env).Done?
    ensures Local(n, h, PassAccept(n, h, env).node)
    ensures var r := L.Deref(n.cells, n.handlers[h].ptr);
            r.value.past.value in env.topology ==> PassAccept(n, h, env).node.handlers[h].state == Reserved
  {
  }

  /** Marking keeps the past node of every cell. */
  lemma MarkedKeepsPast(cells: seq<L.Cell<nat>>, p: Pointer)
    requires L.MarkReserved(cells, p).Some?
    ensures L.Deref(cells, p).Some? && L.Deref(L.MarkReserved(cells, p).value.cells, p).Some?
    ensures L.Deref(L.MarkReserved(cells, p).value.cells, p).value.past == L.Deref(cells, p).value.past
  {
    if p.Entry? {
      SamePlace(cells, L.MarkReserved(cells, p).value.cells, p.addr);
    }
  }

  lemma {:induction false} SamePlace(cells: seq<L.Cell<nat>>, cells': seq<L.Cell<nat>>, a: nat)
    requires |cells'| == |cells| && forall i | 0 <= i < |cells| :: cells'[i].addr == cells[i].addr
    ensures L.Position(cells', a) == L.Position(cells, a)
  {
  }

  lemma RekeyKeepsActing(n: Node, h: nat, original: Id)
    requires Acting(n, h) && original.time == n.handlers[h].uuid.time && original != SENTINEL
    ensures Rekeyed(n, h, original).Some? && Acting(Rekeyed(n, h, original).value, h)
  {
    hide Settled;
    OwnKeyOnly(n, h);
    var n' := Rekeyed(n, h, original).value;
    RekeyKeepsKeys(n, h, original, n');
    hide Keys;
  }

  lemma RekeyKeepsKeys(n: Node, h: nat, original: Id, n': Node)
    requires Keys(n) && h < |n.handlers| && n.handlers[h].uuid in n.store && n.store[n.handlers[h].uuid] == h
    requires forall k <- n.store :: n.store[k] == h ==> k == n.handlers[h].uuid
    requires original.time == n.handlers[h].uuid.time && original != SENTINEL && !n.handlers[h].running
    requires Rekeyed(n, h, original) == Some(n')
    ensures Keys(n') && original in n'.store && n'.store[original] == h
  {
    var id := n.handlers[h].uuid;
    assert original !in n.store - {id};
    if id == original {
      assert n'.store == n.store;
      assert n'.handlers == n.handlers;
    } else {
      RenamingKeepsKeys(n, original, id, n');
    }
  }

  lemma AccSettles(n: Node, h: nat, env: Env)
    requires Acting(n, h) && PassAccept(n, h, env).Done?
    requires var r := L.Deref(n.cells, n.handlers[h].ptr);
             r.Some? && r.value.past.Some? ==> r.value.past.value in env.topology
    ensures Index(PassAccept(n, h, env).node)
  {
    PassAcceptIsLocal(n, h, env);
    LocalKeepsIndex(n, h, PassAccept(n, h, env).node);
  }

  lemma CellsDoNotMatter(n: Node, h: nat, cells: seq<L.Cell<nat>>, ptr: Pointer)
    requires Acting(n, h)
    ensures Acting(Put(n.(cells := cells), h, n.handlers[h].(ptr := ptr)), h)
  {
  }

  lemma TranslationFits(n: Node, id: Id)
    requires Keys(n) && id in n.table
    ensures n.table[id].time == id.time && n.table[id] != SENTINEL
  {
  }

  lemma ResumedActs(n: Node, h: nat)
    requires Acting(n, h)
    ensures Acting(Resumed(n, h), h)
  {
  }

  /** The rest of an ACC, once the reservation is looked up. */
  lemma AcceptKeepsIndex(n: Node, h: nat, env: Env, cells: seq<L.Cell<nat>>)
    requires Acting(n, h)
    requires var r := L.Deref(cells, n.handlers[h].ptr);
             AcceptancePasses(n, n.handlers[h].uuid) && r.Some? && r.value.past.Some? ==>
               r.value.past.value in env.topology
    ensures var n', id := n.(cells := cells), n.handlers[h].uuid;
            && (id in n.table ==> var rekeyed := Rekeyed(n', h, n.table[id]);
                  rekeyed.Some? && (PassAccept(rekeyed.value, h, env).Done? ==> Index(PassAccept(rekeyed.value, h, env).node)))
            && (id !in n.table && id !in n.origins && PassAccept(n', h, env).Done? ==> Index(PassAccept(n', h, env).node))
            && Index(Linked(n', h))
  {
    hide PassAccept;
    hide SettledBut;
    hide Keys;
    var n', id := n.(cells := cells), n.handlers[h].uuid;
    CellsDoNotMatter(n, h, cells, n.handlers[h].ptr);
    assert n' == Put(n', h, n.handlers[h].(ptr := n.handlers[h].ptr));
    LocalKeepsIndex(n', h, Linked(n', h));
    if id !in n.table && id !in n.origins && PassAccept(n', h, env).Done? {
      AccSettles(n', h, env);
    }
    if id in n.table {
      TranslationFits(n, id);
      RekeyKeepsActing(n', h, n.table[id]);
      var n'' := Rekeyed(n', h, n.table[id]).value;
      if PassAccept(n'', h, env).Done? {
        AccSettles(n'', h, env);
      }
    }
  }

  lemma AccKeepsIndex(n0: Node, h: nat, env: Env)
    requires Acting(n0, h) && Routable(n0, h, env, ACC(n0.handlers[h].uuid))
    requires HandleAcc(n0, h, env).Done?
    ensures Index(HandleAcc(n0, h, env).node)
  {
    hide PassAccept;
    hide Keys;
    hide SettledBut;
    hide L.MarkReserved;
    hide L.Adopt;
    hide L.Deref;
    hide Index;
    ResumedActs(n0, h);
    var n := Resumed(n0, h);
    var hd := n.handlers[h];
    if hd.state == Reserved {
      LocalKeepsIndex(n0, h, n);
    } else {
      MarkedKeepsPast(n.cells, hd.ptr);
      AcceptKeepsIndex(n, h, env, L.MarkReserved(n.cells, hd.ptr).value.cells);
    }
  }

  /** Closing a handler keeps the index, even when its key goes or its id falls back to the original. */
  lemma ClosingKeepsIndex(n: Node, h: nat, n': Node)
    requires Acting(n, h)
    requires n'.store == n.store || n'.store == n.store - {n.handlers[h].uuid}
    requires forall t <- n'.table :: t in n.table && n'.table[t] == n.table[t]
    requires |n'.handlers| == |n.handlers| && n'.handlers == n.handlers[h := n'.handlers[h]]
    requires n'.handlers[h].state == Closed && !n'.handlers[h].running
    requires n'.handlers[h].uuid.time == n.handlers[h].uuid.time && n'.handlers[h].uuid != SENTINEL
    ensures Index(n')
  {
    hide Keys;
    OwnKeyOnly(n, h);
    ClosingKeepsKeys(n, h, n');
  }

  /** An acting handler has no key but its own. */
  lemma OwnKeyOnly(n: Node, h: nat)
    requires Acting(n, h)
    ensures forall k <- n.store :: n.store[k] == h ==> k == n.handlers[h].uuid
  {
    hide SettledBut;
  }

  lemma ClosingKeepsKeys(n: Node, h: nat, n': Node)
    requires Keys(n) && h < |n.handlers| && forall k <- n.store :: n.store[k] == h ==> k == n.handlers[h].uuid
    requires n'.store == n.store || n'.store == n.store - {n.handlers[h].uuid}
    requires forall t <- n'.table :: t in n.table && n'.table[t] == n.table[t]
    requires |n'.handlers| == |n.handlers| && forall i | 0 <= i < |n.handlers| && i != h :: n'.handlers[i] == n.handlers[i]
    requires n'.handlers[h].state == Closed && !n'.handlers[h].running
    requires n'.handlers[h].uuid.time == n.handlers[h].uuid.time && n'.handlers[h].uuid != SENTINEL
    ensures Keys(n')
  {
  }

  lemma RefShape(n0: Node, h: nat, env: Env)
    requires h < |n0.handlers| && Routable(n0, h, env, REF(n0.handlers[h].uuid))
    requires HandleRef(n0, h, env).Done?
    ensures var n', id := HandleRef(n0, h, env).node, n0.handlers[h].uuid;
            && (n'.store == n0.store || n'.store == n0.store - {id})
            && (n'.table == n0.table || (id in n0.table && n'.table == n0.table - {id}))
            && (n'.origins == n0.origins || n'.origins == n0.origins - {id})
            && |n'.handlers| == |n0.handlers| && n'.handlers == n0.handlers[h := n'.handlers[h]]
            && n'.handlers[h].state == Closed && n'.handlers[h].running == n0.handlers[h].running
            && n'.handlers[h].uuid == if id in n0.table then n0.table[id] else id
  {
    hide L.Adopt;
    hide L.Adopted;
    hide L.Deref;
    hide Erased;
    var n := Resumed(n0, h);
    ErasedShape(n, n.handlers[h].uuid);
  }

  lemma ErasedShape(n: Node, id: Id)
    requires Erased(n, id).Some?
    ensures Erased(n, id).value == n || Erased(n, id).value == n.(store := n.store - {id})
  {
    hide L.Deref;
  }

  lemma RefKeepsIndex(n: Node, h: nat, env: Env)
    requires Acting(n, h) && Routable(n, h, env, REF(n.handlers[h].uuid))
    requires HandleRef(n, h, env).Done?
    ensures Index(HandleRef(n, h, env).node)
  {
    hide HandleRef;
    RefShape(n, h, env);
    ClosingKeepsIndex(n, h, HandleRef(n, h, env).node);
  }

  lemma HandleKeepsIndex(n: Node, h: nat, env: Env, m: Message)
    requires Acting(n, h) && Routable(n, h, env, m)
    requires Handle(n, h, env, m).Done?
    ensures Index(Handle(n, h, env, m).node)
  {
    hide HandleEar;
    hide HandleMar;
    hide HandleBid;
    hide HandleAcc;
    hide HandleRef;
    hide HandleRep;
    var n' := Handle(n, h, env, m).node;
    match m
    case EAR(_, _, _, _) => EarIsLocal(n, h, env, m); LocalKeepsIndex(n, h, n');
    case MAR(_, _, _, _) => MarIsLocal(n, h, env, m); LocalKeepsIndex(n, h, n');
    case BID(_, _) => BidIsLocal(n, h, m); LocalKeepsIndex(n, h, n');
    case ACC(_) => AccKeepsIndex(n, h, env);
    case REF(_) => RefKeepsIndex(n, h, env);
    case REP(_, _) => RepIsLocal(n, h, env, m); LocalKeepsIndex(n, h, n');
  }

  // ---- Routing ----

  lemma RenamingKeepsIndex(n: Node, id: Id, other: Id)
    requires Index(n) && id != SENTINEL && Elsewhere(n, id, other)
    ensures id !in n.store
    ensures forall k | Elsewhere(n, id, k) :: k == other
    ensures Index(Put(n.(store := n.store[id := n.store[other]] - {other}), n.store[other],
                      n.handlers[n.store[other]].(uuid := id)))
  {
    hide Settled;
    OtherKeyOnly(n, id, other);
    var h := n.store[other];
    var n' := Put(n.(store := n.store[id := h] - {other}), h, n.handlers[h].(uuid := id));
    RenamingKeepsKeys(n, id, other, n');
    hide Keys;
    RenamingKeepsSettled(n, h, id, n');
  }

  lemma OtherKeyOnly(n: Node, id: Id, other: Id)
    requires Keys(n) && Elsewhere(n, id, other)
    ensures id !in n.store && n.store[other] < |n.handlers| && n.handlers[n.store[other]].uuid.time == id.time
    ensures forall k <- n.store :: n.store[k] == n.store[other] || k.time == id.time ==> k == other
  {
  }

  lemma RenamingKeepsKeys(n: Node, id: Id, other: Id, n': Node)
    requires Keys(n) && id != SENTINEL && other in n.store && other.time == id.time && n.store[other] < |n.handlers|
    requires forall k <- n.store :: n.store[k] == n.store[other] || k.time == id.time ==> k == other
    requires id != other && n'.store == n.store[id := n.store[other]] - {other} && n'.table == n.table
    requires |n'.handlers| == |n.handlers| && n'.handlers[n.store[other]] == n.handlers[n.store[other]].(uuid := id)
    requires forall i | 0 <= i < |n.handlers| && i != n.store[other] :: n'.handlers[i] == n.handlers[i]
    ensures Keys(n')
  {
  }

  lemma RenamingKeepsSettled(n: Node, h: nat, id: Id, n': Node)
    requires h < |n.handlers| && forall i | 0 <= i < |n.handlers| :: Settled(n.handlers[i])
    requires n'.handlers == n.handlers[h := n.handlers[h].(uuid := id)]
    ensures forall i | 0 <= i < |n'.handlers| :: Settled(n'.handlers[i])
  {
  }

  /** Under the index a rename finds at most one other key, and leaves the session under the id. */
  lemma RenameKeepsIndex(n: Node, id: Id)
    requires Index(n) && id != SENTINEL
    ensures Renamed(n, id).Some? && Index(Renamed(n, id).value)
    ensures Known(n, id.time) ==> id in Renamed(n, id).value.store
    ensures id in n.store ==> Renamed(n, id).value == n
    ensures Renamed(n, id).value.table == n.table && Renamed(n, id).value.cells == n.cells
  {
    StoredBelow(n);
    hide Index;
    if exists k :: Elsewhere(n, id, k) {
      var other :| Elsewhere(n, id, other);
      RenamingKeepsIndex(n, id, other);
    } else if Known(n, id.time) {
      var k :| k in n.store && k.time == id.time;
      assert !Elsewhere(n, id, k);
    }
  }

  lemma StoredBelow(n: Node)
    requires Index(n)
    ensures forall k <- n.store :: k != SENTINEL && n.store[k] < |n.handlers|
  {
  }

  /** At a node that is not the origin of the session the `_store.at` lookup always succeeds. */
  lemma LookupSucceeds(n: Node, env: Env, m: Message)
    requires Index(n) && m.id != SENTINEL && !IsOrigin(n, m.id.time)
    ensures !Locate(n, env, m).Missing?
  {
    hide Renamed;
    hide Keys;
    RenameKeepsIndex(n, m.id);
    var n' := Renamed(n, m.id).value;
    RenameKeepsIndex(n', m.id);
    StoredBelow(n');
  }

  lemma LocateKeepsIndex(n: Node, env: Env, m: Message)
    requires Index(n) && m.id != SENTINEL
    ensures var place := Locate(n, env, m);
            && (place.Nowhere? ==> Index(place.node))
            && (place.Fresh? ==> !Known(n, m.id.time))
            && (place.Found? ==>
                  Index(place.node) && place.h < |place.node.handlers|
                  && exists k <- place.node.store :: place.node.store[k] == place.h && k.time == m.id.time)
  {
    hide Renamed;
    hide Keys;
    RenameKeepsIndex(n, m.id);
    RenameKeepsIndex(Renamed(n, m.id).value, m.id);
    if m.id in n.table && n.table[m.id] in n.store {
      TranslationFits(n, m.id);
      RenameKeepsIndex(n, n.table[m.id]);
    }
  }

  lemma CreationActs(n: Node, id: Id, hd: Handler)
    requires Index(n) && id != SENTINEL && !Known(n, id.time)
    requires hd.uuid == id && !hd.running
    ensures Acting(Put(Created(n, id), |n.handlers|, hd), |n.handlers|)
  {
    hide Keys;
    hide Known;
    hide Settled;
    CreationKeys(n, id, hd);
  }

  lemma CreationKeys(n: Node, id: Id, hd: Handler)
    requires Keys(n) && id != SENTINEL && !Known(n, id.time) && hd.uuid == id
    ensures Keys(Put(Created(n, id), |n.handlers|, hd))
  {
    hide Keys;
    KeysWithOneMore(n, id, hd, Put(Created(n, id), |n.handlers|, hd));
  }

  lemma KeysWithOneMore(n: Node, id: Id, hd: Handler, n': Node)
    requires Keys(n) && id != SENTINEL && !Known(n, id.time) && hd.uuid == id
    requires n'.store == n.store[id := |n.handlers|] && n'.table == n.table
    requires |n'.handlers| == |n.handlers| + 1 && n'.handlers[|n.handlers|] == hd
    requires forall i | 0 <= i < |n.handlers| :: n'.handlers[i] == n.handlers[i]
    ensures Keys(n')
  {
  }

  lemma FoundActs(n: Node, k: Id, source: Option<Byte>)
    requires Index(n) && k in n.store
    requires !n.handlers[n.store[k]].running && n.handlers[n.store[k]].state != Closed
    ensures Acting(Put(n, n.store[k], n.handlers[n.store[k]].(source := source)), n.store[k])
  {
  }

  lemma BidKeepsIndex(n: Node, h: nat, tally: Tally)
    requires Index(n) && h < |n.handlers|
    ensures Index(Put(n, h, n.handlers[h].(tally := tally)))
  {
  }

  /** Wherever the message is routed, the index survives; a handler it is handed to can act. */
  lemma RoutingKeepsIndex(n: Node, env: Env, source: Byte, m: Message)
    requires Index(n) && m.id != SENTINEL
    ensures var route := Routed(n, env, source, m);
            && (route.Discarded? ==> Index(route.node))
            && (route.Handed? ==> Acting(route.node, route.h) && route.node.handlers[route.h].uuid.time == m.id.time)
  {
    hide Locate;
    hide Keys;
    hide Index;
    hide Acting;
    LocateKeepsIndex(n, env, m);
    match Locate(n, env, m)
    case Nowhere(_) =>
    case Missing =>
    case Fresh =>
      CreationActs(n, m.id, Marked(NewHandler(m.id), m, source));
    case Found(n', h) =>
      var k :| k in n'.store && n'.store[k] == h && k.time == m.id.time;
      var hd := n'.handlers[h];
      StoredPlaced(n', k);
      if hd.running {
        BidKeepsIndex(n', h, Arrive(hd.tally, Bid(if m.BID? then m.value else 0.0, source)));
      } else if Listens(hd.state) {
        FoundActs(n', k, Marked(hd, m, source).source);
      }
  }

  lemma StoredPlaced(n: Node, k: Id)
    requires Index(n) && k in n.store
    ensures n.store[k] < |n.handlers| && Placed(n.handlers[n.store[k]], k)
  {
  }

  // ---- Timeouts and awakenings ----

  /** Only handler h changed and it kept its id; it is closed, or as it was but for what it waits for. */
  lemma ExpireKeepsIndex(n: Node, h: nat, timer: Timer)
    requires Index(n) && h < |n.handlers| && Expire(n, h, timer).Done?
    ensures Index(Expire(n, h, timer).node)
  {
    hide L.Replenish;
  }

  ghost predicate Fits(table: map<Id, Id>)
  {
    forall t <- table :: table[t].time == t.time && table[t] != SENTINEL
  }

  lemma {:induction false} TranslationsFit(table: map<Id, Id>, original: Id, entropies: seq<Entropy>)
    requires Fits(table) && original != SENTINEL
    ensures Fits(Translations(table, original, entropies))
  {
    if entropies != [] {
      var before := Translations(table, original, entropies[..|entropies| - 1]);
      TranslationsFit(table, original, entropies[..|entropies| - 1]);
      var id := Id(original.time, entropies[|entropies| - 1]);
      assert id.time == original.time;
      assert Fits(before[id := original]);
    }
  }

  /** An awakened handler is closed or pre-reserved, under the same id. */
  lemma WakeShape(n: Node, h: nat, env: Env, draw: nat -> Entropy) returns (k: nat)
    requires h < |n.handlers| && Wake(n, h, env, draw).Done?
    ensures var n' := Wake(n, h, env, draw).node;
            && n'.store == n.store && n'.cells == n.cells && n'.origins == n.origins
            && |n'.handlers| == |n.handlers| && n'.handlers == n.handlers[h := n'.handlers[h]]
            && n'.handlers[h].uuid == n.handlers[h].uuid && !n'.handlers[h].running
            && (n'.handlers[h].state == Closed || n'.handlers[h].state == PreReserved)
            && (n'.table == n.table || n'.table == Translations(n.table, n.handlers[h].uuid, Drawn(draw, k)))
  {
    hide L.Deref;
    hide Winners;
    hide Translations;
    var bids := n.handlers[h].tally.bids;
    k := if bids == [] then 0 else |Winners(bids)|;
  }

  lemma AwakenedKeepsIndex(n: Node, h: nat, n': Node)
    requires Index(n) && h < |n.handlers| && n.handlers[h].running
    requires n'.store == n.store && Fits(n'.table)
    requires |n'.handlers| == |n.handlers| && n'.handlers == n.handlers[h := n'.handlers[h]]
    requires n'.handlers[h].uuid == n.handlers[h].uuid && !n'.handlers[h].running
    requires n'.handlers[h].state == Closed || n'.handlers[h].state == PreReserved
    ensures Index(n')
  {
  }

  lemma WakeKeepsIndex(n: Node, h: nat, env: Env, draw: nat -> Entropy)
    requires Index(n) && h < |n.handlers| && n.handlers[h].running && Wake(n, h, env, draw).Done?
    ensures Index(Wake(n, h, env, draw).node)
  {
    hide Wake;
    var k := WakeShape(n, h, env, draw);
    assert Fits(n.table);
    TranslationsFit(n.table, n.handlers[h].uuid, Drawn(draw, k));
    AwakenedKeepsIndex(n, h, Wake(n, h, env, draw).node);
  }

  // ---- Whole runs ----

  /** Assumptions on one event: ids are not the sentinel, and the addresses looked up are ports. */
  ghost predicate Sound(n: Node, env: Env, e: Event)
  {
    && (e.OriginMark? ==> e.id != SENTINEL)
    && (e.Arrival? ==> e.msg.id != SENTINEL)
    && (e.Arrival? ==> var route := Routed(n, env, e.source, e.msg);
          route.Handed? && route.h < |route.node.handlers| ==> Routable(route.node, route.h, env, e.msg))
  }

  lemma StepKeepsIndex(n: Node, env: Env, e: Event)
    requires Index(n) && Sound(n, env, e) && Step(n, env, e).Done?
    ensures Index(Step(n, env, e).node)
  {
    hide Expire;
    hide Wake;
    hide Handle;
    hide Routed;
    hide Routable;
    match e
    case Arrival(source, m) =>
      hide Keys;
      hide Index;
      RoutingKeepsIndex(n, env, source, m);
      var route := Routed(n, env, source, m);
      if route.Handed? {
        HandleKeepsIndex(route.node, route.h, env, m);
      }
    case Timeout(h, timer) =>
      hide Keys;
      if h < |n.handlers| {
        ExpireKeepsIndex(n, h, timer);
      }
    case Awakening(h, draw) =>
      hide Keys;
      if h < |n.handlers| && n.handlers[h].running {
        WakeKeepsIndex(n, h, env, draw);
      }
    case OriginMark(_) =>
  }

  /** The state after a run of events, each with its own surroundings; None once the process died. */
  ghost function Run(n: Node, trace: seq<(Env, Event)>): Option<Node>
  {
    if trace == [] then Some(n)
    else
      var last := trace[|trace| - 1];
      match Run(n, trace[..|trace| - 1])
      case None => None
      case Some(n') =>
        match Step(n', last.0, last.1)
        case Crash => None
        case Done(n'', _) => Some(n'')
  }

  ghost predicate SoundRun(n: Node, trace: seq<(Env, Event)>)
  {
    forall i | 0 <= i < |trace| ::
      var before := Run(n, trace[..i]);
      before.Some? ==> Sound(before.value, trace[i].0, trace[i].1)
  }

  /** In every run of a node, however messages, timeouts and awakenings follow each other: no two keys
      of the store share a time stamp, every stored handler that is not closed sits under its own id,
      translations stay within the session, and between steps every handler is pre-reserved, waiting
      in an auction, reserved, replenishing or closed. */
  lemma {:induction false} IndexInEveryRun(trace: seq<(Env, Event)>)
    requires SoundRun(INITIAL_NODE, trace) && Run(INITIAL_NODE, trace).Some?
    ensures Index(Run(INITIAL_NODE, trace).value)
  {
    if trace != [] {
      var front, last := trace[..|trace| - 1], trace[|trace| - 1];
      assert forall i | 0 <= i < |front| :: front[..i] == trace[..i];
      IndexInEveryRun(front);
      hide Step;
      hide Sound;
      hide Index;
      StepKeepsIndex(Run(INITIAL_NODE, front).value, last.0, last.1);
    }
  }

  /** ... and at a node that is not the session's origin the next lookup finds its handler. */
  lemma {:induction false} LookupInEveryRun(trace: seq<(Env, Event)>, env: Env, m: Message)
    requires SoundRun(INITIAL_NODE, trace) && Run(INITIAL_NODE, trace).Some?
    requires m.id != SENTINEL && !IsOrigin(Run(INITIAL_NODE, trace).value, m.id.time)
    ensures !Locate(Run(INITIAL_NODE, trace).value, env, m).Missing?
  {
    IndexInEveryRun(trace);
    LookupSucceeds(Run(INITIAL_NODE, trace).value, env, m);
  }

  /** ... and CLOSED is the only state in which a handler that is not blocked ignores its messages. */
  lemma {:induction false} OnlyClosedIsDeaf(trace: seq<(Env, Event)>, h: nat)
    requires SoundRun(INITIAL_NODE, trace) && Run(INITIAL_NODE, trace).Some?
    requires h < |Run(INITIAL_NODE, trace).value.handlers| && !Run(INITIAL_NODE, trace).value.handlers[h].running
    ensures var s := Run(INITIAL_NODE, trace).value.handlers[h].state; Listens(s) <==> s != Closed
  {
    IndexInEveryRun(trace);
  }
}
