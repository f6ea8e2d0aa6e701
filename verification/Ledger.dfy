/** The ledger of reservations as a value. Each cell has an address, so a pointer that aliases a cell
    can be told from a reservation held elsewhere; the operations say what the code of Resources and
    Reservation does to both, and are None where an assertion fails, an exception is thrown or a null
    or dangling pointer is followed. */
module Ledger {
  import opened Basics
  import opened Identifiers
  import opened Capabilities

  datatype State = Created | VirtuallyPreReserved | PreReserved | Reserved | Cleared

  datatype Reservation = Reservation(
    uuid: Id, state: State, priority: Byte, caps: Caps, listener: Byte,
    bid: real, past: Option<Byte>, next: seq<Byte>)

  datatype Cell<A> = Cell(addr: A, res: Reservation)

  datatype Pointer<A> = Null | Entry(addr: A) | Detached(res: Reservation)

  /** Reservation::operator==: id, state and kinds of capability. */
  predicate Same(left: Reservation, right: Reservation)
  {
    left.uuid == right.uuid && left.state == right.state && SameKinds(left.caps, right.caps)
  }

  /** The copy constructor forgets the state. */
  function Copy(r: Reservation): Reservation
  {
    r.(state := Created)
  }

  lemma SameReflexive(r: Reservation)
    ensures Same(r, r)
  {
  }

  // ---- Following a pointer ----

  /** The first position holding the address, or the length of the ledger. */
  function Position<A(==)>(cells: seq<Cell<A>>, a: A): (i: nat)
    ensures i <= |cells|
    ensures i < |cells| ==> cells[i].addr == a
    ensures forall j | 0 <= j < i :: cells[j].addr != a
  {
    if cells == [] then 0
    else if cells[0].addr == a then 0
    else 1 + Position(cells[1..], a)
  }

  function Deref<A(==)>(cells: seq<Cell<A>>, p: Pointer<A>): Option<Reservation>
  {
    match p
    case Null => None
    case Entry(a) => var i := Position(cells, a); if i < |cells| then Some(cells[i].res) else None
    case Detached(r) => Some(r)
  }

  /** Storing through a pointer: into the cell it aliases, or into the reservation it owns. */
  function Store<A(==)>(cells: seq<Cell<A>>, p: Pointer<A>, r: Reservation): seq<Cell<A>>
  {
    if p.Entry? then
      var i := Position(cells, p.addr);
      if i < |cells| then cells[i := cells[i].(res := r)] else cells
    else cells
  }

  function Repoint<A>(p: Pointer<A>, r: Reservation): Pointer<A>
  {
    if p.Detached? then Detached(r) else p
  }

  // ---- Searches ----

  /** The first position of a reservation of that time stamp, or the length. */
  function FamilyPosition<A>(cells: seq<Cell<A>>, t: Time): (i: nat)
    ensures i <= |cells|
    ensures i < |cells| ==> cells[i].res.uuid.time == t
    ensures forall j | 0 <= j < i :: cells[j].res.uuid.time != t
  {
    if cells == [] then 0
    else if cells[0].res.uuid.time == t then 0
    else 1 + FamilyPosition(cells[1..], t)
  }

  /** The first position of a reservation the given one compares equal to, or the length. */
  function SamePosition<A>(cells: seq<Cell<A>>, r: Reservation): (i: nat)
    ensures i <= |cells|
    ensures i < |cells| ==> Same(r, cells[i].res)
    ensures forall j | 0 <= j < i :: !Same(r, cells[j].res)
  {
    if cells == [] then 0
    else if Same(r, cells[0].res) then 0
    else 1 + SamePosition(cells[1..], r)
  }

  /** The first position of a reservation that compares equal to the given one (the other way round,
      as std::find compares), or the length. */
  function EqualPosition<A>(cells: seq<Cell<A>>, r: Reservation): (i: nat)
    ensures i <= |cells|
    ensures i < |cells| ==> Same(cells[i].res, r)
    ensures forall j | 0 <= j < i :: !Same(cells[j].res, r)
  {
    if cells == [] then 0
    else if Same(cells[0].res, r) then 0
    else 1 + EqualPosition(cells[1..], r)
  }

  /** Resources::get_reservation_for: the first reservation of the session, renamed to the id asked for. */
  function Adopt<A>(cells: seq<Cell<A>>, id: Id): seq<Cell<A>>
  {
    var i := FamilyPosition(cells, id.time);
    if i < |cells| then cells[i := cells[i].(res := cells[i].res.(uuid := id))] else cells
  }

  function Adopted<A>(cells: seq<Cell<A>>, id: Id): Pointer<A>
  {
    var i := FamilyPosition(cells, id.time);
    if i < |cells| then Entry(cells[i].addr) else Null
  }

  // ---- Resources::available_for_performance ----

  datatype Admission<A> = Fault | Refused(cells: seq<Cell<A>>, ptr: Pointer<A>) | Accepted(cells: seq<Cell<A>>, ptr: Pointer<A>)

  /** What a node would bid for a request: nothing if bare metal rules it out. */
  type Offer = (Caps, Byte) -> Option<real>

  /** The bid is written through the pointer; only a nonzero one pushes a copy, at the address of the
      new list node. */
  function Admit<A(==)>(cells: seq<Cell<A>>, p: Pointer<A>, priority: Byte, offer: Offer, slot: A): Admission<A>
  {
    match Deref(cells, p)
    case None => Fault
    case Some(r) =>
      match offer(r.caps, priority)
      case None => Refused(cells, p)
      case Some(bid) =>
        var r' := r.(priority := priority, bid := bid);
        if bid != 0.0
        then Accepted(Store(cells, p, r') + [Cell(slot, Copy(r'))], Repoint(p, r'))
        else Refused(Store(cells, p, r'), Repoint(p, r'))
  }

  // ---- Resources::mark_reservation ----

  function Reserve(r: Reservation): Reservation
  {
    r.(state := Reserved)
  }

  function ReserveIf<A>(cell: Cell<A>, marked: bool): Cell<A>
  {
    if marked then cell.(res := Reserve(cell.res)) else cell
  }

  /** The ledger once the cells before position m have been compared with r. */
  function ReserveFirst<A>(cells: seq<Cell<A>>, r: Reservation, m: nat): (out: seq<Cell<A>>)
    requires m <= |cells|
    ensures |out| == |cells|
    ensures forall i | 0 <= i < |cells| :: out[i] == ReserveIf(cells[i], i < m && Same(r, cells[i].res))
  {
    seq(|cells|, i requires 0 <= i < |cells| => ReserveIf(cells[i], i < m && Same(r, cells[i].res)))
  }

  datatype Marked<A> = Marked(cells: seq<Cell<A>>, ptr: Pointer<A>)

  predicate Markable(r: Reservation)
  {
    r.state == Created || r.state == PreReserved
  }

  /** Once the loop has passed the cell the pointer aliases, it compares against a RESERVED
      reservation: later cells are left alone, and one equal to that fails its assertion. */
  predicate ClashesLater<A>(cells: seq<Cell<A>>, i: nat, r: Reservation)
  {
    exists j | i < j < |cells| :: Same(Reserve(r), cells[j].res)
  }

  function MarkReserved<A(==)>(cells: seq<Cell<A>>, p: Pointer<A>): Option<Marked<A>>
  {
    match p
    case Null => None
    case Entry(a) =>
      var i := Position(cells, a);
      if i == |cells| || !Markable(cells[i].res) || ClashesLater(cells, i, cells[i].res) then None
      else Some(Marked(ReserveFirst(cells, cells[i].res, i + 1), p))
    case Detached(r) =>
      if SamePosition(cells, r) < |cells| then
        if Markable(r) then Some(Marked(ReserveFirst(cells, r, |cells|), p)) else None
      else if r.state == Created || r.state == VirtuallyPreReserved
      then Some(Marked(cells, Detached(Reserve(r))))
      else None
  }

  /** The loop of mark_reservation from position i on, comparing at each round against what the
      pointer holds by then. */
  function MarkLoop<A(==)>(cells: seq<Cell<A>>, p: Pointer<A>, i: nat, found: bool): Option<Marked<A>>
    requires i <= |cells|
    decreases |cells| - i
  {
    match Deref(cells, p)
    case None => None
    case Some(r) =>
      if i == |cells| then
        if found then Some(Marked(cells, p))
        else if r.state == Created || r.state == VirtuallyPreReserved
        then Some(Marked(Store(cells, p, Reserve(r)), Repoint(p, Reserve(r))))
        else None
      else if !Same(r, cells[i].res) then MarkLoop(cells, p, i + 1, found)
      else if !Markable(cells[i].res) then None
      else MarkLoop(cells[i := cells[i].(res := Reserve(cells[i].res))], p, i + 1, true)
  }

  ghost predicate Distinct<A>(cells: seq<Cell<A>>)
  {
    forall i, j | 0 <= i < j < |cells| :: cells[i].addr != cells[j].addr
  }

  lemma {:induction false} PositionIs<A>(cells: seq<Cell<A>>, a: A, k: nat)
    requires Distinct(cells) && k < |cells| && cells[k].addr == a
    ensures Position(cells, a) == k
  {
  }

  /** Past the aliased cell, which is RESERVED by now. */
  lemma {:induction false} LoopAfter<A>(cells: seq<Cell<A>>, k: nat, i: nat)
    requires Distinct(cells) && k < i <= |cells| && cells[k].res.state == Reserved
    ensures MarkLoop(cells, Entry(cells[k].addr), i, true) ==
            if exists j | i <= j < |cells| :: Same(cells[k].res, cells[j].res) then None
            else Some(Marked(cells, Entry(cells[k].addr)))
    decreases |cells| - i
  {
    PositionIs(cells, cells[k].addr, k);
    if i < |cells| && !Same(cells[k].res, cells[i].res) {
      LoopAfter(cells, k, i + 1);
    }
  }

  /** One more cell compared. */
  lemma ReserveNext<A>(cells: seq<Cell<A>>, r: Reservation, i: nat)
    requires i < |cells|
    ensures ReserveFirst(cells, r, i)[i] == cells[i]
    ensures ReserveFirst(cells, r, i + 1) ==
            if Same(r, cells[i].res) then ReserveFirst(cells, r, i)[i := ReserveIf(cells[i], true)]
            else ReserveFirst(cells, r, i)
  {
    hide Same;
    assert ReserveFirst(cells, r, i + 1) ==
           ReserveFirst(cells, r, i)[i := ReserveIf(cells[i], Same(r, cells[i].res))];
  }

  /** At the aliased cell, which compares equal to itself. */
  lemma {:induction false} LoopAt<A>(cells: seq<Cell<A>>, k: nat, found: bool)
    requires Distinct(cells) && k < |cells|
    ensures MarkLoop(ReserveFirst(cells, cells[k].res, k), Entry(cells[k].addr), k, found)
         == MarkReserved(cells, Entry(cells[k].addr))
  {
    var r := cells[k].res;
    var now, after := ReserveFirst(cells, r, k), ReserveFirst(cells, r, k + 1);
    PositionIs(cells, cells[k].addr, k);
    PositionIs(now, cells[k].addr, k);
    SameReflexive(r);
    ReserveNext(cells, r, k);
    hide SameKinds;
    if Markable(r) {
      LoopAfter(after, k, k + 1);
    }
  }

  /** Up to the aliased cell, which still holds what it held at the start. */
  lemma {:induction false} LoopBefore<A>(cells: seq<Cell<A>>, k: nat, i: nat, found: bool)
    requires Distinct(cells) && i <= k < |cells|
    ensures MarkLoop(ReserveFirst(cells, cells[k].res, i), Entry(cells[k].addr), i, found)
         == MarkReserved(cells, Entry(cells[k].addr))
    decreases k - i
  {
    if i == k {
      LoopAt(cells, k, found);
    } else {
      var r := cells[k].res;
      LoopBefore(cells, k, i + 1, found || Same(r, cells[i].res));
      var now := ReserveFirst(cells, r, i);
      PositionIs(cells, cells[k].addr, k);
      PositionIs(now, cells[k].addr, k);
      ReserveNext(cells, r, i);
      assert now[k] == cells[k];
      assert Same(r, cells[i].res) ==> Markable(r) == Markable(cells[i].res);
      hide Same;
      hide ReserveFirst;
    }
  }

  lemma {:induction false} LoopDetached<A>(cells: seq<Cell<A>>, r: Reservation, i: nat, found: bool)
    requires i <= |cells|
    requires found <==> exists j | 0 <= j < i :: Same(r, cells[j].res)
    requires found ==> Markable(r)
    ensures MarkLoop(ReserveFirst(cells, r, i), Detached(r), i, found) == MarkReserved(cells, Detached(r))
    decreases |cells| - i
  {
    hide SameKinds;
    var now := ReserveFirst(cells, r, i);
    if i == |cells| {
      assert found <==> SamePosition(cells, r) < |cells|;
      assert !found ==> now == cells;
    } else {
      ReserveNext(cells, r, i);
      if !Same(r, cells[i].res) {
        LoopDetached(cells, r, i + 1, found);
      } else if Markable(r) {
        LoopDetached(cells, r, i + 1, true);
      } else {
        assert SamePosition(cells, r) < |cells|;
      }
    }
  }

  /** The aliasing loop amounts to the closed form of MarkReserved. */
  lemma {:induction false} LoopIsMarkReserved<A>(cells: seq<Cell<A>>, p: Pointer<A>)
    requires Distinct(cells)
    ensures MarkLoop(cells, p, 0, false) == MarkReserved(cells, p)
  {
    match p
    case Null =>
    case Entry(a) =>
      var k := Position(cells, a);
      if k < |cells| {
        assert ReserveFirst(cells, cells[k].res, 0) == cells;
        LoopBefore(cells, k, 0, false);
      }
    case Detached(r) =>
      assert ReserveFirst(cells, r, 0) == cells;
      LoopDetached(cells, r, 0, false);
  }

  // ---- Resources::mark_pre_reservation ----

  /** The first equal cell is pre-reserved and returned; without one the statement itself is
      pre-reserved and a copy of it pushed, which is CREATED again. */
  function MarkPreReserved<A(==)>(cells: seq<Cell<A>>, p: Pointer<A>, slot: A): Option<Marked<A>>
  {
    match Deref(cells, p)
    case None => None
    case Some(r) =>
      if r.state != Created then None
      else
        var i := SamePosition(cells, r);
        if i < |cells|
        then Some(Marked(cells[i := cells[i].(res := cells[i].res.(state := PreReserved))], Entry(cells[i].addr)))
        else Some(Marked(cells + [Cell(slot, Copy(r))], Entry(slot)))
  }

  // ---- Resources::replenish_reservation ----

  function Erase<A>(cells: seq<Cell<A>>, i: nat): seq<Cell<A>>
    requires i < |cells|
  {
    cells[..i] + cells[i + 1..]
  }

  function Replenish<A(==)>(cells: seq<Cell<A>>, p: Pointer<A>): Option<seq<Cell<A>>>
  {
    match Deref(cells, p)
    case None => None
    case Some(r) =>
      var i := EqualPosition(cells, r);
      if i == |cells| || r.state == Created || r.state == Cleared then None
      else Some(Erase(Store(cells, p, r.(state := Cleared)), i))
  }

  /** The last reservation with exactly that id, or the pointer held before. */
  function LastOf<A>(cells: seq<Cell<A>>, id: Id, p: Pointer<A>): Pointer<A>
  {
    if cells == [] then p
    else
      var last := cells[|cells| - 1];
      if last.res.uuid == id then Entry(last.addr) else LastOf(cells[..|cells| - 1], id, p)
  }
}
