/** Rolling a session back. Ledger operations of other sessions cannot tell whether session s has
    entries; so once s times out, the ledger is the one that would be there had s never existed. */
module Rollback {
  import opened Basics
  import opened Identifiers
  import opened Capabilities
  import opened Protocol
  import opened Handlers
  import opened Isolation
  import L = Ledger

  // ---- Ledger operations ----

  datatype Op =
    | Adopting(id: Id)
    | Admitting(p: Pointer, priority: Byte, offer: L.Offer)
    | Reserving(p: Pointer)
    | PreReserving(p: Pointer)
    | Releasing(p: Pointer)
    | Writing(p: Pointer, r: L.Reservation)

  datatype Effect = Failed | Effect(cells: Cells, slot: nat, ptr: Pointer, accepted: bool)

  function Apply(cells: Cells, slot: nat, op: Op): Effect
  {
    match op
    case Adopting(id) => Effect(L.Adopt(cells, id), slot, L.Adopted(cells, id), true)
    case Admitting(p, priority, offer) =>
      (match L.Admit(cells, p, priority, offer, slot)
       case Fault => Failed
       case Refused(cells', p') => Effect(cells', slot, p', false)
       case Accepted(cells', p') => Effect(cells', slot + 1, p', true))
    case Reserving(p) =>
      (match L.MarkReserved(cells, p)
       case None => Failed
       case Some(m) => Effect(m.cells, slot, m.ptr, true))
    case PreReserving(p) =>
      (match L.MarkPreReserved(cells, p, slot)
       case None => Failed
       case Some(m) => Effect(m.cells, slot + 1, m.ptr, true))
    case Releasing(p) =>
      (match L.Replenish(cells, p)
       case None => Failed
       case Some(cells') => Effect(cells', slot, p, true))
    case Writing(p, r) =>
      if L.Deref(cells, p).Some? then Effect(L.Store(cells, p, r), slot, L.Repoint(p, r), true) else Failed
  }

  /** The operation is session t's: its id or its pointer belongs to t. */
  ghost predicate OpOf(op: Op, cells: Cells, slot: nat, t: Time)
  {
    match op
    case Adopting(id) => id.time == t
    case Writing(p, r) => Own(cells, slot, p, t) && r.uuid.time == t
    case Admitting(p, _, _) => Own(cells, slot, p, t)
    case Reserving(p) => Own(cells, slot, p, t)
    case PreReserving(p) => Own(cells, slot, p, t)
    case Releasing(p) => Own(cells, slot, p, t)
  }

  /** An operation of t leaves the ledger well addressed and the entries of all others in place. */
  lemma {:induction false} OpIsConfined(cells: Cells, slot: nat, op: Op, t: Time)
    requires Addressed(cells, slot) && OpOf(op, cells, slot, t) && Apply(cells, slot, op).Effect?
    ensures var e := Apply(cells, slot, op);
            Without(e.cells, t) == Without(cells, t) && Addressed(e.cells, e.slot)
  {
    hide L.Admit;
    hide L.MarkReserved;
    hide L.MarkPreReserved;
    hide L.Replenish;
    hide L.Adopt;
    hide L.Adopted;
    hide L.Store;
    hide L.Repoint;
    hide Addressed;
    hide Own;
    hide Without;
    hide Evolves;
    var e := Apply(cells, slot, op);
    match op
    case Adopting(id) => AdoptEvolves(cells, slot, id); Kept(cells, slot, e, t);
    case Admitting(p, priority, offer) => AdmitEvolves(cells, slot, p, priority, offer, t); Kept(cells, slot, e, t);
    case Reserving(p) => MarkReservedEvolves(cells, slot, p, t); Kept(cells, slot, e, t);
    case PreReserving(p) => MarkPreReservedEvolves(cells, slot, p, t); Kept(cells, slot, e, t);
    case Releasing(p) => ReplenishFrame(cells, slot, p, t);
    case Writing(p, r) => StoreEvolves(cells, slot, p, r, t); Kept(cells, slot, e, t);
  }

  lemma {:induction false} Kept(cells: Cells, slot: nat, e: Effect, t: Time)
    requires Addressed(cells, slot) && e.Effect? && Evolves(cells, slot, e.cells, e.slot, t)
    ensures Without(e.cells, t) == Without(cells, t) && Addressed(e.cells, e.slot)
  {
    EvolvesAddressed(cells, slot, e.cells, e.slot, t);
    EvolvesFrame(cells, slot, e.cells, e.slot, t);
  }

  // ---- Where an entry stands once session s is left out ----

  lemma {:induction false} WithoutMembers(cells: Cells, s: Time)
    ensures forall c :: c in Without(cells, s) <==> c in cells && TimeOf(c) != s
    ensures forall i | 0 <= i < |Without(cells, s)| :: Without(cells, s)[i] in cells
  {
    if cells != [] {
      var front, last := cells[..|cells| - 1], cells[|cells| - 1];
      assert cells == front + [last];
      WithoutMembers(front, s);
    }
  }

  /** The position of cell k in the ledger without s, and what is before and after it. */
  lemma Split(cells: Cells, k: nat, s: Time) returns (j: nat)
    requires k < |cells| && TimeOf(cells[k]) != s
    ensures j < |Without(cells, s)| && Without(cells, s)[j] == cells[k]
    ensures Without(cells, s)[..j] == Without(cells[..k], s)
    ensures Without(cells, s)[j + 1..] == Without(cells[k + 1..], s)
  {
    j := |Without(cells[..k], s)|;
    assert cells == cells[..k] + ([cells[k]] + cells[k + 1..]);
    WithoutConcat(cells[..k], [cells[k]] + cells[k + 1..], s);
    WithoutConcat([cells[k]], cells[k + 1..], s);
    assert Without([cells[k]], s) == [cells[k]];
  }

  lemma {:induction false} NoneBefore(cells: Cells, k: nat, s: Time, j: nat, i: nat)
    requires k <= |cells| && j <= |Without(cells, s)| && Without(cells, s)[..j] == Without(cells[..k], s) && i < j
    ensures exists i' | 0 <= i' < k :: cells[i'] == Without(cells, s)[i]
  {
    WithoutMembers(cells[..k], s);
    assert Without(cells, s)[i] == Without(cells, s)[..j][i];
    assert Without(cells[..k], s)[i] in cells[..k];
  }

  lemma SplitUpdate(cells: Cells, k: nat, s: Time, c: L.Cell<nat>, j: nat)
    requires k < |cells| && TimeOf(cells[k]) != s && TimeOf(c) != s
    requires j < |Without(cells, s)| && Without(cells, s)[..j] == Without(cells[..k], s)
    requires Without(cells, s)[j + 1..] == Without(cells[k + 1..], s)
    ensures Without(cells[k := c], s) == Without(cells, s)[j := c]
    ensures Without(L.Erase(cells, k), s) == L.Erase(Without(cells, s), j)
  {
    var before, after := cells[..k], cells[k + 1..];
    WithoutConcat(before, after, s);
    WithoutMiddle(before, c, after, s);
    hide Without;
    Updated(cells, k, c);
    Updated(Without(cells, s), j, c);
  }

  lemma {:induction false} WithoutMiddle(before: Cells, c: L.Cell<nat>, after: Cells, s: Time)
    requires TimeOf(c) != s
    ensures Without(before + [c] + after, s) == Without(before, s) + [c] + Without(after, s)
  {
    assert Without([c], s) == [c];
    hide Without;
    WithoutConcat(before + [c], after, s);
    WithoutConcat(before, [c], s);
  }

  lemma Updated(cells: Cells, k: nat, c: L.Cell<nat>)
    requires k < |cells|
    ensures cells[k := c] == cells[..k] + [c] + cells[k + 1..]
  {
  }

  lemma {:induction false} WithoutDistinct(cells: Cells, s: Time)
    requires L.Distinct(cells)
    ensures L.Distinct(Without(cells, s))
  {
    if cells != [] {
      var front, last := cells[..|cells| - 1], cells[|cells| - 1];
      WithoutDistinct(front, s);
      WithoutMembers(front, s);
      assert forall i | 0 <= i < |Without(front, s)| :: Without(front, s)[i] in front;
    }
  }

  // ---- Pointers and searches do not see session s ----

  /** A pointer that leads nowhere in session s. */
  ghost predicate Foreign(cells: Cells, p: Pointer, s: Time)
  {
    && (p.Entry? ==> forall i | 0 <= i < |cells| && cells[i].addr == p.addr :: TimeOf(cells[i]) != s)
    && (p.Detached? ==> p.res.uuid.time != s)
  }

  lemma PositionWithout(cells: Cells, a: nat, s: Time) returns (j: nat)
    requires L.Distinct(cells) && Foreign(cells, L.Entry(a), s)
    ensures var w, k := Without(cells, s), L.Position(cells, a);
            && j == L.Position(w, a) && (k == |cells| <==> j == |w|)
            && (k < |cells| ==> w[j] == cells[k] && w[..j] == Without(cells[..k], s) && w[j + 1..] == Without(cells[k + 1..], s))
  {
    hide Without;
    var w, k := Without(cells, s), L.Position(cells, a);
    j := L.Position(w, a);
    if k < |cells| {
      var j' := Split(cells, k, s);
      WithoutDistinct(cells, s);
      L.PositionIs(w, a, j');
    } else {
      NowhereWithout(cells, a, s);
    }
  }

  lemma {:induction false} NowhereWithout(cells: Cells, a: nat, s: Time)
    requires L.Position(cells, a) == |cells|
    ensures L.Position(Without(cells, s), a) == |Without(cells, s)|
  {
    WithoutMembers(cells, s);
  }

  lemma {:induction false} DerefWithout(cells: Cells, p: Pointer, s: Time)
    requires L.Distinct(cells) && Foreign(cells, p, s)
    ensures L.Deref(Without(cells, s), p) == L.Deref(cells, p)
    ensures L.Deref(cells, p).Some? ==> L.Deref(cells, p).value.uuid.time != s
  {
    if p.Entry? {
      var j := PositionWithout(cells, p.addr, s);
    }
  }

  lemma {:induction false} StoreWithout(cells: Cells, p: Pointer, r: L.Reservation, s: Time)
    requires L.Distinct(cells) && Foreign(cells, p, s) && r.uuid.time != s
    ensures L.Store(Without(cells, s), p, r) == Without(L.Store(cells, p, r), s)
  {
    if p.Entry? {
      var j := PositionWithout(cells, p.addr, s);
      var k := L.Position(cells, p.addr);
      if k < |cells| {
        SplitUpdate(cells, k, s, cells[k].(res := r), j);
      }
    }
  }

  lemma {:induction false} AdoptWithout(cells: Cells, id: Id, s: Time)
    requires id.time != s
    ensures L.Adopt(Without(cells, s), id) == Without(L.Adopt(cells, id), s)
    ensures L.Adopted(Without(cells, s), id) == L.Adopted(cells, id)
  {
    var w, k := Without(cells, s), L.FamilyPosition(cells, id.time);
    WithoutMembers(cells, s);
    if k < |cells| {
      var j := Split(cells, k, s);
      forall i | 0 <= i < j ensures TimeOf(w[i]) != id.time {
        NoneBefore(cells, k, s, j, i);
      }
      assert L.FamilyPosition(w, id.time) == j;
      SplitUpdate(cells, k, s, cells[k].(res := cells[k].res.(uuid := id)), j);
    }
  }

  lemma SamePositionWithout(cells: Cells, r: L.Reservation, s: Time) returns (j: nat)
    requires r.uuid.time != s
    ensures var w, k := Without(cells, s), L.SamePosition(cells, r);
            && j == L.SamePosition(w, r) && (k == |cells| <==> j == |w|)
            && (k < |cells| ==> w[j] == cells[k] && w[..j] == Without(cells[..k], s) && w[j + 1..] == Without(cells[k + 1..], s))
  {
    hide SameKinds;
    var w, k := Without(cells, s), L.SamePosition(cells, r);
    j := L.SamePosition(w, r);
    WithoutMembers(cells, s);
    if k < |cells| {
      var j' := Split(cells, k, s);
      forall i | 0 <= i < j' ensures !L.Same(r, w[i].res) {
        NoneBefore(cells, k, s, j', i);
      }
      assert j == j';
    }
  }

  lemma EqualPositionWithout(cells: Cells, r: L.Reservation, s: Time) returns (j: nat)
    requires r.uuid.time != s
    ensures var w, k := Without(cells, s), L.EqualPosition(cells, r);
            && j == L.EqualPosition(w, r) && (k == |cells| <==> j == |w|)
            && (k < |cells| ==> w[j] == cells[k] && w[..j] == Without(cells[..k], s) && w[j + 1..] == Without(cells[k + 1..], s))
  {
    hide SameKinds;
    var w, k := Without(cells, s), L.EqualPosition(cells, r);
    j := L.EqualPosition(w, r);
    WithoutMembers(cells, s);
    if k < |cells| {
      var j' := Split(cells, k, s);
      forall i | 0 <= i < j' ensures !L.Same(w[i].res, r) {
        NoneBefore(cells, k, s, j', i);
      }
      assert j == j';
    }
  }

  // ---- Every operation commutes with leaving s out ----

  lemma {:induction false} WithoutPushed(cells: Cells, c: L.Cell<nat>, s: Time)
    requires TimeOf(c) != s
    ensures Without(cells + [c], s) == Without(cells, s) + [c]
  {
    assert (cells + [c])[..|cells|] == cells;
  }

  lemma {:induction false} AdmitWithout(cells: Cells, p: Pointer, priority: Byte, offer: L.Offer, slot: nat, s: Time)
    requires L.Distinct(cells) && Foreign(cells, p, s)
    ensures Apply(Without(cells, s), slot, Admitting(p, priority, offer))
         == Left(Apply(cells, slot, Admitting(p, priority, offer)), s)
  {
    hide L.Store;
    hide L.Deref;
    hide Without;
    DerefWithout(cells, p, s);
    var r := L.Deref(cells, p);
    if r.Some? && offer(r.value.caps, priority).Some? {
      var r' := r.value.(priority := priority, bid := offer(r.value.caps, priority).value);
      StoreWithout(cells, p, r', s);
      WithoutPushed(L.Store(cells, p, r'), L.Cell(slot, L.Copy(r')), s);
    }
  }

  function Left(e: Effect, s: Time): Effect
  {
    if e.Failed? then e else e.(cells := Without(e.cells, s))
  }

  lemma ReservePrefix(a: Cells, b: Cells, r: L.Reservation)
    ensures L.ReserveFirst(a + b, r, |a|) == L.ReserveFirst(a, r, |a|) + b
  {
    hide L.Same;
  }

  lemma ReserveSnoc(a: Cells, c: L.Cell<nat>, r: L.Reservation)
    ensures L.ReserveFirst(a + [c], r, |a| + 1) == L.ReserveFirst(a, r, |a|) + [L.ReserveIf(c, L.Same(r, c.res))]
  {
    hide L.Same;
  }

  lemma {:induction false} ReserveAllWithout(a: Cells, r: L.Reservation, s: Time)
    ensures Without(L.ReserveFirst(a, r, |a|), s) == L.ReserveFirst(Without(a, s), r, |Without(a, s)|)
  {
    hide L.Same;
    if a == [] {
      assert L.ReserveFirst(a, r, 0) == [];
    } else {
      var front, last := a[..|a| - 1], a[|a| - 1];
      assert a == front + [last];
      ReserveAllWithout(front, r, s);
      ReserveSnoc(front, last, r);
      var marked := L.ReserveIf(last, L.Same(r, last.res));
      WithoutSnoc(L.ReserveFirst(front, r, |front|), marked, s);
      if TimeOf(last) != s {
        ReserveSnoc(Without(front, s), last, r);
      }
    }
  }

  lemma {:induction false} WithoutSnoc(a: Cells, c: L.Cell<nat>, s: Time)
    ensures Without(a + [c], s) == Without(a, s) + if TimeOf(c) == s then [] else [c]
  {
    assert (a + [c])[..|a|] == a;
  }

  lemma {:induction false} ReserveWithout(cells: Cells, r: L.Reservation, m: nat, s: Time)
    requires m <= |cells|
    ensures |Without(cells[..m], s)| <= |Without(cells, s)|
    ensures Without(L.ReserveFirst(cells, r, m), s) == L.ReserveFirst(Without(cells, s), r, |Without(cells[..m], s)|)
  {
    hide Without;
    hide L.ReserveFirst;
    var a, b := cells[..m], cells[m..];
    assert cells == a + b;
    WithoutConcat(a, b, s);
    ReservePrefix(a, b, r);
    WithoutConcat(L.ReserveFirst(a, r, m), b, s);
    ReserveAllWithout(a, r, s);
    ReservePrefix(Without(a, s), Without(b, s), r);
  }

  lemma {:induction false} ClashWithout(cells: Cells, k: nat, j: nat, r: L.Reservation, s: Time)
    requires k < |cells| && r.uuid.time != s
    requires j < |Without(cells, s)| && Without(cells, s)[j + 1..] == Without(cells[k + 1..], s)
    ensures L.ClashesLater(Without(cells, s), j, r) == L.ClashesLater(cells, k, r)
  {
    hide SameKinds;
    var w := Without(cells, s);
    WithoutMembers(cells[k + 1..], s);
    if L.ClashesLater(cells, k, r) {
      var i :| k < i < |cells| && L.Same(L.Reserve(r), cells[i].res);
      assert cells[i] in cells[k + 1..];
      assert cells[i] in w[j + 1..];
    }
    if L.ClashesLater(w, j, r) {
      var i :| j < i < |w| && L.Same(L.Reserve(r), w[i].res);
      assert w[i] == w[j + 1..][i - j - 1];
      assert w[i] in cells[k + 1..];
    }
  }

  lemma {:induction false} MarkEntryWithout(cells: Cells, a: nat, s: Time)
    requires L.Distinct(cells) && Foreign(cells, L.Entry(a), s)
    ensures var marked, less := L.MarkReserved(cells, L.Entry(a)), L.MarkReserved(Without(cells, s), L.Entry(a));
            if marked.Some? then less == Some(L.Marked(Without(marked.value.cells, s), L.Entry(a))) && marked.value.ptr == L.Entry(a)
            else !less.Some?
  {
    hide L.Same;
    hide L.ClashesLater;
    hide L.ReserveFirst;
    hide Without;
    var j := PositionWithout(cells, a, s);
    var k := L.Position(cells, a);
    if k < |cells| {
      ClashWithout(cells, k, j, cells[k].res, s);
      ReserveWithout(cells, cells[k].res, k + 1, s);
      assert cells[..k + 1] == cells[..k] + [cells[k]];
      WithoutPushed(cells[..k], cells[k], s);
    }
  }

  lemma {:induction false} MarkDetachedWithout(cells: Cells, r: L.Reservation, s: Time)
    requires r.uuid.time != s
    ensures var marked, less := L.MarkReserved(cells, L.Detached(r)), L.MarkReserved(Without(cells, s), L.Detached(r));
            if marked.Some? then less == Some(L.Marked(Without(marked.value.cells, s), marked.value.ptr))
            else !less.Some?
  {
    hide L.Same;
    hide L.ReserveFirst;
    hide Without;
    var j := SamePositionWithout(cells, r, s);
    ReserveWithout(cells, r, |cells|, s);
    assert cells[..|cells|] == cells;
  }

  lemma {:induction false} MarkWithout(cells: Cells, p: Pointer, slot: nat, s: Time)
    requires L.Distinct(cells) && Foreign(cells, p, s)
    ensures Apply(Without(cells, s), slot, Reserving(p)) == Left(Apply(cells, slot, Reserving(p)), s)
  {
    match p
    case Null =>
    case Entry(a) => MarkEntryWithout(cells, a, s); hide L.MarkReserved;
    case Detached(r) => MarkDetachedWithout(cells, r, s); hide L.MarkReserved;
  }

  lemma {:induction false} PreReserveWithout(cells: Cells, p: Pointer, slot: nat, s: Time)
    requires L.Distinct(cells) && Foreign(cells, p, s)
    ensures Apply(Without(cells, s), slot, PreReserving(p)) == Left(Apply(cells, slot, PreReserving(p)), s)
  {
    hide L.Same;
    hide L.Deref;
    hide Without;
    DerefWithout(cells, p, s);
    if L.Deref(cells, p).Some? {
      var r := L.Deref(cells, p).value;
      var j := SamePositionWithout(cells, r, s);
      var k := L.SamePosition(cells, r);
      if k < |cells| {
        SameUuid(r, cells[k].res);
        SplitUpdate(cells, k, s, cells[k].(res := cells[k].res.(state := L.PreReserved)), j);
      } else {
        WithoutPushed(cells, L.Cell(slot, L.Copy(r)), s);
      }
    }
  }

  lemma SameUuid(left: L.Reservation, right: L.Reservation)
    requires L.Same(left, right)
    ensures left.uuid == right.uuid && left.state == right.state
  {
  }

  lemma {:induction false} ReleaseWithout(cells: Cells, p: Pointer, slot: nat, s: Time)
    requires L.Distinct(cells) && Foreign(cells, p, s)
    ensures Apply(Without(cells, s), slot, Releasing(p)) == Left(Apply(cells, slot, Releasing(p)), s)
  {
    hide L.Same;
    hide L.Store;
    hide L.Erase;
    DerefWithout(cells, p, s);
    if L.Deref(cells, p).Some? {
      var r := L.Deref(cells, p).value;
      var j := EqualPositionWithout(cells, r, s);
      var k := L.EqualPosition(cells, r);
      if k < |cells| {
        SameUuid(cells[k].res, r);
        var cleared := r.(state := L.Cleared);
        StoreWithout(cells, p, cleared, s);
        EraseStored(cells, p, cleared, k, j, s);
      }
    }
  }

  lemma StoreShape(cells: Cells, p: Pointer, r: L.Reservation)
    ensures |L.Store(cells, p, r)| == |cells|
    ensures forall i | 0 <= i < |cells| ::
              || L.Store(cells, p, r)[i] == cells[i]
              || (L.Store(cells, p, r)[i] == cells[i].(res := r) && p.Entry? && cells[i].addr == p.addr)
  {
  }

  /** Erasing cell k of the ledger just stored to is erasing its counterpart. */
  lemma {:induction false} EraseStored(cells: Cells, p: Pointer, r: L.Reservation, k: nat, j: nat, s: Time)
    requires L.Distinct(cells) && Foreign(cells, p, s) && r.uuid.time != s
    requires k < |cells| && TimeOf(cells[k]) != s && j < |Without(cells, s)|
    requires Without(cells, s)[..j] == Without(cells[..k], s)
    requires L.Store(Without(cells, s), p, r) == Without(L.Store(cells, p, r), s)
    ensures |L.Store(cells, p, r)| == |cells| && |L.Store(Without(cells, s), p, r)| == |Without(cells, s)|
    ensures L.Erase(L.Store(Without(cells, s), p, r), j) == Without(L.Erase(L.Store(cells, p, r), k), s)
  {
    hide L.Store;
    StoreShape(cells, p, r);
    StoreShape(Without(cells, s), p, r);
    var stored := L.Store(cells, p, r);
    var j' := Split(stored, k, s);
    SameSize(cells[..k], stored[..k], s);
    SplitUpdate(stored, k, s, stored[k], j');
  }

  lemma {:induction false} SameSize(cells: Cells, cells': Cells, s: Time)
    requires |cells'| == |cells| && forall i | 0 <= i < |cells| :: (TimeOf(cells'[i]) == s) == (TimeOf(cells[i]) == s)
    ensures |Without(cells', s)| == |Without(cells, s)|
  {
    if cells != [] {
      SameSize(cells[..|cells| - 1], cells'[..|cells| - 1], s);
    }
  }

  lemma OwnIsForeign(cells: Cells, slot: nat, p: Pointer, s: Time, t: Time)
    requires Own(cells, slot, p, t) && s != t
    ensures Foreign(cells, p, s)
  {
  }

  /** What session t does to the ledger, and what it gets back, is the same whether or not the entries
      of session s are there. */
  lemma {:induction false} OpIgnores(cells: Cells, slot: nat, op: Op, s: Time, t: Time)
    requires s != t && Addressed(cells, slot) && OpOf(op, cells, slot, t)
    ensures Apply(Without(cells, s), slot, op) == Left(Apply(cells, slot, op), s)
  {
    if !op.Adopting? {
      OwnIsForeign(cells, slot, op.p, s, t);
    }
    match op
    case Adopting(id) => AdoptWithout(cells, id, s);
    case Admitting(p, priority, offer) => AdmitWithout(cells, p, priority, offer, slot, s);
    case Reserving(p) => MarkWithout(cells, p, slot, s);
    case PreReserving(p) => PreReserveWithout(cells, p, slot, s);
    case Releasing(p) => ReleaseWithout(cells, p, slot, s);
    case Writing(p, r) => DerefWithout(cells, p, s); StoreWithout(cells, p, r, s);
  }

  // ---- Runs with timeouts of s among operations of others ----

  datatype Item = Expiry(timer: Timer) | Other(op: Op)

  function Act(n: Node, h: nat, item: Item): (n': Option<Node>)
    requires h < |n.handlers|
    ensures n'.Some? ==> |n'.value.handlers| == |n.handlers|
  {
    match item
    case Expiry(timer) =>
      (match Expire(n, h, timer)
       case Crash => None
       case Done(n', _) => Some(n'))
    case Other(op) =>
      (match Apply(n.cells, n.slot, op)
       case Failed => None
       case Effect(cells, slot, _, _) => Some(n.(cells := cells, slot := slot)))
  }

  function Play(n: Node, h: nat, items: seq<Item>): (n': Option<Node>)
    requires h < |n.handlers|
    ensures n'.Some? ==> |n'.value.handlers| == |n.handlers|
    decreases |items|
  {
    if items == [] then Some(n)
    else
      match Act(n, h, items[0])
      case None => None
      case Some(n') => Play(n', h, items[1..])
  }

  /** The operations among the items, on the ledger alone. */
  function Replay(cells: Cells, slot: nat, items: seq<Item>): Option<(Cells, nat)>
    decreases |items|
  {
    if items == [] then Some((cells, slot))
    else if items[0].Expiry? then Replay(cells, slot, items[1..])
    else
      match Apply(cells, slot, items[0].op)
      case Failed => None
      case Effect(cells', slot', _, _) => Replay(cells', slot', items[1..])
  }

  ghost predicate OthersOnly(n: Node, h: nat, items: seq<Item>, s: Time)
    requires h < |n.handlers|
    decreases |items|
  {
    items != [] ==>
      && (items[0].Expiry? ==> !items[0].timer.RepTimer?)
      && (items[0].Other? ==> exists t: Time :: t != s && OpOf(items[0].op, n.cells, n.slot, t))
      && var n' := Act(n, h, items[0]);
         n'.Some? ==> OthersOnly(n'.value, h, items[1..], s)
  }

  /** Handler h of session s waits, and the one entry of s is pre-reserved and its own. */
  ghost predicate Pending(n: Node, h: nat, s: Time)
  {
    && h < |n.handlers| && n.handlers[h].state != Closed && n.handlers[h].state != Reserved
    && Addressed(n.cells, n.slot) && n.handlers[h].ptr.Entry?
    && exists c :: Only(n.cells, s) == [c] && c.addr == n.handlers[h].ptr.addr && c.res.state == L.PreReserved
  }

  lemma {:induction false} OnlyMembers(cells: Cells, s: Time)
    ensures forall c :: c in Only(cells, s) <==> c in cells && TimeOf(c) == s
    ensures |Only(cells, s)| + |Without(cells, s)| == |cells|
  {
    if cells != [] {
      var front, last := cells[..|cells| - 1], cells[|cells| - 1];
      assert cells == front + [last];
      OnlyMembers(front, s);
    }
  }

  lemma OnlyAt(cells: Cells, slot: nat, s: Time, c: L.Cell<nat>) returns (k: nat)
    requires Addressed(cells, slot) && Only(cells, s) == [c]
    ensures k < |cells| && cells[k] == c && TimeOf(c) == s && L.Position(cells, c.addr) == k
    ensures forall i | 0 <= i < |cells| && i != k :: TimeOf(cells[i]) != s
  {
    OnlyMembers(cells, s);
    assert c in Only(cells, s);
    k :| 0 <= k < |cells| && cells[k] == c;
    L.PositionIs(cells, c.addr, k);
    assert forall i | 0 <= i < |cells| && TimeOf(cells[i]) == s :: cells[i] in Only(cells, s);
  }

  /** Releasing the only entry of a session leaves the ledger without the session. */
  lemma {:induction false} ReleaseOnly(cells: Cells, slot: nat, s: Time, c: L.Cell<nat>)
    requires Addressed(cells, slot) && Only(cells, s) == [c] && c.res.state == L.PreReserved
    ensures L.Replenish(cells, L.Entry(c.addr)) == Some(Without(cells, s))
  {
    hide SameKinds;
    hide Only;
    var k := OnlyAt(cells, slot, s, c);
    L.SameReflexive(c.res);
    assert L.EqualPosition(cells, c.res) == k;
    var stored := cells[k := c.(res := c.res.(state := L.Cleared))];
    assert L.Erase(stored, k) == L.Erase(cells, k);
    EraseFrame(cells, k, s);
    NothingLeft(L.Erase(cells, k), s);
  }

  lemma {:induction false} NothingLeft(cells: Cells, s: Time)
    requires forall i | 0 <= i < |cells| :: TimeOf(cells[i]) != s
    ensures Without(cells, s) == cells
  {
    if cells != [] {
      NothingLeft(cells[..|cells| - 1], s);
    }
  }

  lemma OtherKeepsPending(n: Node, h: nat, op: Op, s: Time, t: Time)
    requires Pending(n, h, s) && t != s && OpOf(op, n.cells, n.slot, t) && Act(n, h, Other(op)).Some?
    ensures Pending(Act(n, h, Other(op)).value, h, s)
  {
    hide Apply;
    hide Only;
    hide Without;
    OpIsConfined(n.cells, n.slot, op, t);
    OnlyWithout(n.cells, t, s);
    OnlyWithout(Apply(n.cells, n.slot, op).cells, t, s);
  }

  /** Only the first timeout has an effect: once h is closed its further timeouts leave no trace, and
      the ledger is what the operations of the others make of it. */
  lemma {:induction false} PlayClosed(n: Node, h: nat, items: seq<Item>, s: Time)
    requires h < |n.handlers| && n.handlers[h].state == Closed && OthersOnly(n, h, items, s)
    ensures var after := Play(n, h, items);
            Replay(n.cells, n.slot, items) == if after.Some? then Some((after.value.cells, after.value.slot)) else None
    ensures Play(n, h, items).Some? ==> Play(n, h, items).value.handlers == n.handlers
    decreases |items|
  {
    hide Apply;
    hide OpOf;
    if items != [] && Act(n, h, items[0]).Some? {
      PlayClosed(Act(n, h, items[0]).value, h, items[1..], s);
    }
  }

  ghost predicate HasExpiry(items: seq<Item>)
  {
    exists i | 0 <= i < |items| :: items[i].Expiry?
  }

  /** A pending session followed by any timeouts of its own, at least one, among any operations of
      other sessions: the ledger is, in content and order, the one those operations produce without
      the session, they succeed or fail just as they would without it, and the handler is closed. */
  lemma {:induction false} RolledBack(n: Node, h: nat, items: seq<Item>, s: Time)
    requires h < |n.handlers| && Pending(n, h, s) && OthersOnly(n, h, items, s) && HasExpiry(items)
    ensures var after := Play(n, h, items);
            && Replay(Without(n.cells, s), n.slot, items)
               == (if after.Some? then Some((after.value.cells, after.value.slot)) else None)
            && (after.Some? ==> after.value.handlers[h].state == Closed)
    decreases |items|
  {
    hide Apply;
    hide OpOf;
    hide Pending;
    var item := items[0];
    match item
    case Expiry(timer) =>
      ExpiryRollsBack(n, h, timer, s);
      PlayClosed(Act(n, h, item).value, h, items[1..], s);
    case Other(op) =>
      var t: Time :| t != s && OpOf(op, n.cells, n.slot, t);
      PendingAddressed(n, h, s);
      OpIgnores(n.cells, n.slot, op, s, t);
      if Act(n, h, item).Some? {
        OtherKeepsPending(n, h, op, s, t);
        assert HasExpiry(items[1..]) by {
          var i :| 0 <= i < |items| && items[i].Expiry?;
          assert items[1..][i - 1] == items[i];
        }
        RolledBack(Act(n, h, item).value, h, items[1..], s);
      }
  }

  lemma PendingAddressed(n: Node, h: nat, s: Time)
    requires Pending(n, h, s)
    ensures Addressed(n.cells, n.slot)
  {
  }

  lemma {:induction false} ExpiryRollsBack(n: Node, h: nat, timer: Timer, s: Time)
    requires Pending(n, h, s) && !timer.RepTimer?
    ensures var n' := Act(n, h, Expiry(timer));
            && n'.Some? && n'.value.cells == Without(n.cells, s) && n'.value.slot == n.slot
            && n'.value.handlers[h].state == Closed
  {
    hide L.Replenish;
    hide Without;
    hide Only;
    var c :| Only(n.cells, s) == [c] && c.addr == n.handlers[h].ptr.addr && c.res.state == L.PreReserved;
    ReleaseOnly(n.cells, n.slot, s, c);
  }
}
