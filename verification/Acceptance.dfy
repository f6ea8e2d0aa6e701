/** What one ACC does to the ledger of the node that takes it. */
module Acceptance {
  import opened Basics
  import opened Identifiers
  import opened Protocol
  import opened Handlers
  import opened Isolation
  import L = Ledger

  /** One ledger entry of session s, old or new, became RESERVED. */
  ghost predicate Reserves(cells: Cells, cells': Cells, s: Time)
  {
    exists i :: ReservesAt(cells, cells', s, i)
  }

  ghost predicate ReservesAt(cells: Cells, cells': Cells, s: Time, i: nat)
  {
    && i < |cells'| && TimeOf(cells'[i]) == s && cells'[i].res.state == L.Reserved
    && (i < |cells| ==> cells[i].addr == cells'[i].addr && TimeOf(cells[i]) == s && cells[i].res.state != L.Reserved)
  }

  /** The first entry of session s, the one every message finds, is RESERVED. */
  ghost predicate FirstReserved(cells: Cells, s: Time)
  {
    var i := L.FamilyPosition(cells, s);
    i < |cells| && cells[i].res.state == L.Reserved
  }

  lemma {:induction false} FamilyPositionIs(cells: Cells, s: Time, i: nat)
    requires i < |cells| && TimeOf(cells[i]) == s && forall j | 0 <= j < i :: TimeOf(cells[j]) != s
    ensures L.FamilyPosition(cells, s) == i
  {
  }

  lemma AdoptKeepsFirst(cells: Cells, id: Id, s: Time)
    requires FirstReserved(cells, s)
    ensures FirstReserved(L.Adopt(cells, id), s)
  {
    AdoptFinds(cells, id);
    FamilyPositionIs(L.Adopt(cells, id), s, L.FamilyPosition(cells, s));
  }

  lemma {:induction false} AdoptFinds(cells: Cells, id: Id)
    ensures |L.Adopt(cells, id)| == |cells|
    ensures forall i | 0 <= i < |cells| ::
              && L.Adopt(cells, id)[i].addr == cells[i].addr && L.Adopt(cells, id)[i].res.state == cells[i].res.state
              && TimeOf(L.Adopt(cells, id)[i]) == TimeOf(cells[i])
    ensures !L.Adopted(cells, id).Detached?
    ensures L.Adopted(cells, id).Entry? ==>
              var i := L.FamilyPosition(cells, id.time);
              i < |cells| && cells[i].addr == L.Adopted(cells, id).addr
  {
  }

  /** Marking through an aliasing pointer reserves just the aliased cell, at least. */
  lemma MarkReserves(cells: Cells, slot: nat, a: nat, i: nat)
    requires Addressed(cells, slot) && i < |cells| && cells[i].addr == a && L.MarkReserved(cells, L.Entry(a)).Some?
    ensures var cells' := L.MarkReserved(cells, L.Entry(a)).value.cells;
            && |cells'| == |cells| && cells[i].res.state != L.Reserved
            && cells'[i] == cells[i].(res := L.Reserve(cells[i].res))
            && forall j | 0 <= j < |cells| :: cells'[j].res.uuid == cells[j].res.uuid
  {
    L.PositionIs(cells, a, i);
    L.SameReflexive(cells[i].res);
    hide L.Same;
  }

  lemma LinkedKeeps(n: Node, h: nat)
    requires h < |n.handlers|
    ensures var cells' := Linked(n, h).cells;
            |cells'| == |n.cells| && forall i | 0 <= i < |cells'| ::
              && cells'[i].addr == n.cells[i].addr && cells'[i].res.uuid == n.cells[i].res.uuid
              && cells'[i].res.state == n.cells[i].res.state
  {
  }

  lemma PassAcceptKeeps(n: Node, h: nat, env: Env)
    requires h < |n.handlers| && PassAccept(n, h, env).Done?
    ensures var cells' := PassAccept(n, h, env).node.cells;
            cells' == n.cells || cells' == Linked(n, h).cells
  {
  }

  lemma AccReserves(n0: Node, h: nat, env: Env)
    requires h < |n0.handlers| && Addressed(n0.cells, n0.slot) && HandleAcc(n0, h, env).Done?
    requires n0.handlers[h].state != Reserved
    ensures Reserves(n0.cells, HandleAcc(n0, h, env).node.cells, n0.handlers[h].uuid.time)
    ensures FirstReserved(HandleAcc(n0, h, env).node.cells, n0.handlers[h].uuid.time)
    ensures !FirstReserved(n0.cells, n0.handlers[h].uuid.time)
  {
    hide L.Adopt;
    hide L.Adopted;
    hide L.MarkReserved;
    hide PassAccept;
    hide Linked;
    hide Evolves;
    var n := Resumed(n0, h);
    var hd := n.handlers[h];
    AdoptFinds(n0.cells, hd.uuid);
    AdoptEvolves(n0.cells, n0.slot, hd.uuid);
    EvolvesAddressed(n0.cells, n0.slot, n.cells, n.slot, hd.uuid.time);
    var i := L.FamilyPosition(n0.cells, hd.uuid.time);
    if hd.ptr.Entry? {
      var n' := n.(cells := L.MarkReserved(n.cells, hd.ptr).value.cells);
      MarkReserves(n.cells, n.slot, hd.ptr.addr, i);
      AccEnds(n, h, env, n');
      forall m: Node | h < |m.handlers| ensures |Linked(m, h).cells| == |m.cells| {
        LinkedKeeps(m, h);
      }
      var last := HandleAcc(n0, h, env).node.cells;
      assert ReservesAt(n0.cells, last, hd.uuid.time, i);
      FamilyPositionIs(last, hd.uuid.time, i);
    } else {
      NullFails(n.cells);
    }
  }

  lemma NullFails(cells: Cells)
    ensures !L.MarkReserved(cells, L.Null).Some?
  {
  }

  /** However an ACC ends after the marking, it changes neither ids nor states of the ledger. */
  lemma AccEnds(n: Node, h: nat, env: Env, n': Node)
    requires h < |n.handlers| && L.MarkReserved(n.cells, n.handlers[h].ptr).Some?
    requires n' == n.(cells := L.MarkReserved(n.cells, n.handlers[h].ptr).value.cells)
    ensures var id := n.handlers[h].uuid;
            && (id in n.table && Rekeyed(n', h, n.table[id]).Some? ==>
                  Quietly(n'.cells, PassAccept(Rekeyed(n', h, n.table[id]).value, h, env)))
            && Quietly(n'.cells, PassAccept(n', h, env)) && Quietly(n'.cells, Done(Linked(n', h), []))
  {
    hide L.MarkReserved;
    hide PassAccept;
    hide Linked;
    var id := n.handlers[h].uuid;
    LinkedKeeps(n', h);
    if PassAccept(n', h, env).Done? {
      PassAcceptKeeps(n', h, env);
    }
    if id in n.table && Rekeyed(n', h, n.table[id]).Some? {
      var n'' := Rekeyed(n', h, n.table[id]).value;
      LinkedKeeps(n'', h);
      if PassAccept(n'', h, env).Done? {
        PassAcceptKeeps(n'', h, env);
      }
    }
  }

  ghost predicate Quietly(cells: Cells, o: Outcome)
  {
    o.Done? ==>
      |o.node.cells| == |cells| && forall i | 0 <= i < |cells| ::
        && o.node.cells[i].addr == cells[i].addr && o.node.cells[i].res.uuid == cells[i].res.uuid
        && o.node.cells[i].res.state == cells[i].res.state
  }

  /** A handler that is already reserved takes no further notice of ACCs. */
  lemma AccAgain(n: Node, h: nat, env: Env)
    requires h < |n.handlers| && n.handlers[h].state == Reserved
    ensures HandleAcc(n, h, env) == Done(Resumed(n, h), [])
  {
  }
}
