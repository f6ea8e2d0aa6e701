/** The Reservation and Resources objects. Handlers hold pointers to reservations that may be nodes of
    the ledger itself, so the loops below change, through one name, what they compare through another;
    every method is proved against the value-level operation of module Ledger. */
module Resources {
  import opened Basics
  import opened Identifiers
  import opened Capabilities
  import L = Ledger

  class Reservation {
    var uuid: Id
    var state: L.State
    var priority: Byte
    var caps: Caps
    var listener: Byte
    var bid: real
    var past: Option<Byte>
    var next: seq<Byte>

    ghost function Value(): L.Reservation
      reads this
    {
      L.Reservation(uuid, state, priority, caps, listener, bid, past, next)
    }

    /** Handler::produce_reservation with the id marked afterwards. */
    constructor Requested(uuid: Id, caps: Caps, priority: Byte, listener: Byte)
      ensures Value() == L.Reservation(uuid, L.Created, priority, caps, listener, -1.0, None, [])
    {
      this.uuid, this.caps, this.priority, this.listener := uuid, caps, priority, listener;
      this.state, this.bid, this.past, this.next := L.Created, -1.0, None, [];
    }

    /** The copy constructor resets the state. */
    constructor CopyOf(other: Reservation)
      ensures Value() == L.Copy(other.Value())
    {
      this.uuid, this.caps, this.priority, this.listener := other.uuid, other.caps, other.priority, other.listener;
      this.state, this.bid, this.past, this.next := L.Created, other.bid, other.past, other.next;
    }

    method Equals(other: Reservation) returns (same: bool)
      ensures same <==> L.Same(Value(), other.Value())
    {
      same := uuid == other.uuid && state == other.state && SameKinds(caps, other.caps);
    }

    method Reserve()
      requires state == L.Created || state == L.VirtuallyPreReserved
      modifies this`state
      ensures Value() == old(Value()).(state := L.Reserved)
    {
      state := L.Reserved;
    }

    method PreReserve()
      requires state == L.Created
      modifies this`state
      ensures Value() == old(Value()).(state := L.PreReserved)
    {
      state := L.PreReserved;
    }

    method MarkReserved()
      requires state == L.PreReserved
      modifies this`state
      ensures Value() == old(Value()).(state := L.Reserved)
    {
      state := L.Reserved;
    }

    method Replenish()
      requires state == L.Reserved || state == L.PreReserved || state == L.VirtuallyPreReserved
      modifies this`state
      ensures Value() == old(Value()).(state := L.Cleared)
    {
      state := L.Cleared;
    }
  }

  class Resources {
    var reservations: seq<Reservation>

    /** The ledger as a value; the address of a cell is the list node itself. */
    ghost var Contents: seq<L.Cell<Reservation>>

    /** A list holds each of its nodes once, and Contents says what the nodes hold. */
    ghost predicate Valid()
      reads this, reservations
    {
      && (forall i, j | 0 <= i < j < |reservations| :: reservations[i] != reservations[j])
      && |Contents| == |reservations|
      && forall i | 0 <= i < |reservations| :: Contents[i] == L.Cell(reservations[i], reservations[i].Value())
    }

    /** What a raw pointer means to the ledger: one of its nodes, or a reservation of its own. */
    ghost function Pointer(r: Reservation?): L.Pointer<Reservation>
      reads this, r
    {
      if r == null then L.Null else if r in reservations then L.Entry(r as Reservation) else L.Detached(r.Value())
    }

    constructor ()
      ensures Valid() && Contents == []
    {
      reservations, Contents := [], [];
    }

    /** Where the list holds a node is where its address is found. */
    lemma {:induction false} NodePosition(r: Reservation)
      requires Valid()
      ensures var i := L.Position(Contents, r);
              if r in reservations then i < |reservations| && reservations[i] == r else i == |reservations|
    {
    }

    /** Following a raw pointer finds what the object holds. */
    lemma Followed(r: Reservation)
      requires Valid()
      ensures L.Deref(Contents, Pointer(r)) == Some(r.Value())
    {
      NodePosition(r);
    }

    /** A change made through a pointer shows in the ledger when the pointer aliases a node. */
    ghost method Record(r: Reservation)
      requires |Contents| == |reservations|
      requires forall i, j | 0 <= i < j < |reservations| :: reservations[i] != reservations[j]
      requires forall i | 0 <= i < |reservations| :: Contents[i].addr == reservations[i]
      requires forall i | 0 <= i < |reservations| && reservations[i] != r :: Contents[i].res == reservations[i].Value()
      modifies this`Contents
      ensures Valid() && Contents == L.Store(old(Contents), Pointer(r), r.Value())
    {
      Contents := L.Store(Contents, Pointer(r), r.Value());
    }

    method Push(r: Reservation)
      requires Valid() && r !in reservations
      modifies this
      ensures Valid() && Contents == old(Contents) + [L.Cell(r, r.Value())]
      ensures reservations == old(reservations) + [r]
    {
      reservations := reservations + [r];
      Contents := Contents + [L.Cell(r, r.Value())];
    }

    method AvailableForPerformance(statement: Reservation, priority: Byte, offer: L.Offer)
      returns (position: Reservation?)
      requires Valid()
      modifies this, statement`priority, statement`bid
      ensures Valid()
      ensures position == null ==>
        L.Admit(old(Contents), old(Pointer(statement)), priority, offer, statement) == L.Refused(Contents, Pointer(statement))
      ensures position != null ==> fresh(position) && position in reservations
      ensures position != null ==>
        L.Admit(old(Contents), old(Pointer(statement)), priority, offer, position) == L.Accepted(Contents, Pointer(statement))
    {
      Followed(statement);
      var bid := offer(statement.caps, priority);
      if !bid.Some? {
        return null;
      }
      statement.priority, statement.bid := priority, bid.value;
      Record(statement);
      if bid.value == 0.0 {
        return null;
      }
      position := new Reservation.CopyOf(statement);
      Push(position);
    }

    /** One round of the loop of mark_reservation. */
    method MarkItem(reservation: Reservation, i: nat, found: bool) returns (ok: bool, now: bool)
      requires Valid() && i < |reservations|
      modifies this`Contents, reservations[i]
      ensures ok ==> Valid()
      ensures L.MarkLoop(old(Contents), old(Pointer(reservation)), i, found) ==
              if ok then L.MarkLoop(Contents, Pointer(reservation), i + 1, now) else None
    {
      Followed(reservation);
      var item := reservations[i];
      var same := reservation.Equals(item);
      hide L.Same;
      if !same {
        return true, found;
      }
      if item.state != L.Created {
        if item.state != L.PreReserved {
          return false, true;
        }
        item.MarkReserved();
      } else {
        item.Reserve();
      }
      Contents := Contents[i := L.Cell(item, item.Value())];
      return true, true;
    }

    method MarkItems(reservation: Reservation) returns (ok: bool, found: bool)
      requires Valid()
      modifies this`Contents, reservations
      ensures reservations == old(reservations)
      ensures ok ==> Valid()
      ensures L.MarkLoop(old(Contents), old(Pointer(reservation)), 0, false) ==
              if ok then L.MarkLoop(Contents, Pointer(reservation), |Contents|, found) else None
    {
      hide L.MarkLoop;
      found := false;
      for i := 0 to |reservations|
        invariant Valid() && reservations == old(reservations)
        invariant L.MarkLoop(old(Contents), old(Pointer(reservation)), 0, false)
               == L.MarkLoop(Contents, Pointer(reservation), i, found)
      {
        ok, found := MarkItem(reservation, i, found);
        if !ok {
          return;
        }
      }
      ok := true;
    }

    method MarkReservation(reservation: Reservation?) returns (ok: bool)
      requires Valid()
      modifies this`Contents, reservations, reservation
      ensures ok ==> Valid()
      ensures L.MarkReserved(old(Contents), old(Pointer(reservation))) ==
              if ok then Some(L.Marked(Contents, Pointer(reservation))) else None
    {
      if reservation == null {
        return false;
      }
      L.LoopIsMarkReserved(Contents, Pointer(reservation));
      hide L.MarkReserved;
      var found;
      ok, found := MarkItems(reservation);
      if ok {
        Followed(reservation);
        if !found {
          ok := ReserveDirectly(reservation);
        }
      }
    }

    /** The listener's own statement, when the ledger holds nothing equal to it. */
    method ReserveDirectly(reservation: Reservation) returns (ok: bool)
      requires Valid()
      modifies this`Contents, reservation
      ensures ok ==> Valid()
      ensures L.MarkLoop(old(Contents), old(Pointer(reservation)), |old(Contents)|, false) ==
              if ok then Some(L.Marked(Contents, Pointer(reservation))) else None
    {
      Followed(reservation);
      NodePosition(reservation);
      if reservation.state != L.Created && reservation.state != L.VirtuallyPreReserved {
        return false;
      }
      reservation.Reserve();
      Contents := L.Store(Contents, Pointer(reservation), reservation.Value());
      ok := true;
    }

    /** The search of mark_pre_reservation. */
    method FindSame(reservation: Reservation) returns (i: nat)
      requires Valid()
      ensures i == L.SamePosition(Contents, reservation.Value())
    {
      i := 0;
      while i < |reservations|
        invariant i <= |reservations|
        invariant forall j | 0 <= j < i :: !L.Same(reservation.Value(), Contents[j].res)
      {
        var same := reservation.Equals(reservations[i]);
        if same {
          break;
        }
        i := i + 1;
      }
      SameAt(reservation.Value(), i);
    }

    method MarkPreReservation(reservation: Reservation) returns (ok: bool, marked: Reservation)
      requires Valid()
      modifies this, reservations, reservation`state
      ensures ok ==> Valid() && marked in reservations
      ensures L.MarkPreReserved(old(Contents), old(Pointer(reservation)), marked) ==
              if ok then Some(L.Marked(Contents, L.Entry(marked))) else None
    {
      Followed(reservation);
      ghost var r := reservation.Value();
      var i := FindSame(reservation);
      if i < |reservations| {
        ok, marked := PreReserveItem(r, i);
      } else {
        if reservation in reservations {
          L.SameReflexive(r);
        }
        ok, marked := PreReserveDirectly(reservation);
      }
    }

    lemma {:induction false} SameAt(r: L.Reservation, i: nat)
      requires i <= |Contents|
      requires forall j | 0 <= j < i :: !L.Same(r, Contents[j].res)
      requires i < |Contents| ==> L.Same(r, Contents[i].res)
      ensures L.SamePosition(Contents, r) == i
    {
    }

    method PreReserveItem(ghost r: L.Reservation, i: nat) returns (ok: bool, marked: Reservation)
      requires Valid() && i < |reservations| && L.SamePosition(Contents, r) == i
      modifies this`Contents, reservations
      ensures marked in reservations && reservations == old(reservations)
      ensures ok ==> Valid()
      ensures ok <==> r.state == L.Created
      ensures ok ==> Contents == old(Contents)[i := old(Contents[i]).(res := old(Contents[i].res).(state := L.PreReserved))]
      ensures marked == old(Contents[i].addr)
    {
      marked := reservations[i];
      if marked.state != L.Created {
        return false, marked;
      }
      marked.PreReserve();
      Contents := Contents[i := L.Cell(marked, marked.Value())];
      ok := true;
    }

    method PreReserveDirectly(reservation: Reservation) returns (ok: bool, marked: Reservation)
      requires Valid() && reservation !in reservations
      modifies this, reservation`state
      ensures ok ==> Valid() && marked in reservations
      ensures ok <==> old(reservation.Value()).state == L.Created
      ensures ok ==> Contents == old(Contents) + [L.Cell(marked, L.Copy(old(reservation.Value())))]
    {
      marked := reservation;
      if reservation.state != L.Created {
        return false, marked;
      }
      reservation.PreReserve();
      marked := new Reservation.CopyOf(reservation);
      Push(marked);
      ok := true;
    }

    /** std::find, comparing each node to the reservation. */
    method FindEqual(reservation: Reservation) returns (i: nat)
      requires Valid()
      ensures i == L.EqualPosition(Contents, reservation.Value())
    {
      i := 0;
      while i < |reservations|
        invariant i <= |reservations|
        invariant forall j | 0 <= j < i :: !L.Same(Contents[j].res, reservation.Value())
      {
        var same := reservations[i].Equals(reservation);
        if same {
          break;
        }
        i := i + 1;
      }
      EqualAt(reservation.Value(), i);
    }

    method ReplenishReservation(reservation: Reservation?) returns (ok: bool)
      requires Valid()
      modifies this, reservation
      ensures ok ==> Valid()
      ensures L.Replenish(old(Contents), old(Pointer(reservation))) == if ok then Some(Contents) else None
    {
      if reservation == null {
        return false;
      }
      Followed(reservation);
      var i := FindEqual(reservation);
      if i == |reservations| || reservation.state == L.Created || reservation.state == L.Cleared {
        return false;
      }
      reservation.Replenish();
      Record(reservation);
      Remove(i);
      ok := true;
    }

    lemma {:induction false} EqualAt(r: L.Reservation, i: nat)
      requires i <= |Contents|
      requires forall j | 0 <= j < i :: !L.Same(Contents[j].res, r)
      requires i < |Contents| ==> L.Same(Contents[i].res, r)
      ensures L.EqualPosition(Contents, r) == i
    {
    }

    method Remove(i: nat)
      requires Valid() && i < |reservations|
      modifies this
      ensures Valid() && Contents == L.Erase(old(Contents), i)
    {
      reservations := reservations[..i] + reservations[i + 1..];
      Contents := L.Erase(Contents, i);
    }

    method GetReservationFor(id: Id) returns (found: Reservation?)
      requires Valid()
      modifies this`Contents, reservations
      ensures Valid()
      ensures Contents == L.Adopt(old(Contents), id)
      ensures Pointer(found) == L.Adopted(old(Contents), id)
    {
      var i := 0;
      while i < |reservations|
        invariant i <= |reservations|
        invariant forall j | 0 <= j < i :: Contents[j].res.uuid.time != id.time
      {
        if reservations[i].uuid.time == id.time {
          found := reservations[i];
          if found.uuid != id {
            found.uuid := id;
            Contents := Contents[i := L.Cell(found, found.Value())];
          }
          return;
        }
        i := i + 1;
      }
      found := null;
    }
  }
}
