/** The process and its handlers as objects whose fields are updated step by step. Every method is
    proved to do what the corresponding function on node values says. */
module Machine {
  import opened Basics
  import opened Identifiers
  import opened Capabilities
  import opened Routes
  import opened Auction
  import opened H = Handlers
  import opened Pr = Processes
  import opened Sessions
  import P = Protocol
  import L = Ledger

  type Cells = seq<L.Cell<nat>>

  class Handler {
    var uuid: Id
    var state: P.HandlerState
    var tally: Tally
    var ptr: P.Pointer
    var source: Option<Byte>
    var running: bool

    constructor (id: Id)
      ensures View() == NewHandler(id)
    {
      uuid, state, tally, ptr, source, running := id, P.Ready, Tally(0, 0, []), L.Null, None, false;
    }

    function View(): P.Handler
      reads this
    {
      P.Handler(uuid, state, tally, ptr, source, running)
    }
  }

  function Views(handlers: seq<Handler>): (views: seq<P.Handler>)
    reads handlers
    ensures |views| == |handlers|
    ensures forall i | 0 <= i < |handlers| :: views[i] == handlers[i].View()
  {
    if handlers == [] then [] else Views(handlers[..|handlers| - 1]) + [handlers[|handlers| - 1].View()]
  }

  lemma PutAgain(n: P.Node, h: nat)
    requires h < |n.handlers|
    ensures P.Put(n, h, n.handlers[h]) == n
  {
  }

  lemma PutThrice(n: P.Node, h: nat)
    requires h < |n.handlers|
    ensures forall cells: Cells, a: P.Handler, b: P.Handler ::
              P.Put(P.Put(n.(cells := cells), h, a), h, b) == P.Put(n.(cells := cells), h, b)
  {
  }

  lemma PutTwice(n: P.Node, h: nat, a: P.Handler, b: P.Handler)
    requires h < |n.handlers|
    ensures P.Put(P.Put(n, h, a), h, b) == P.Put(n, h, b)
  {
  }

  lemma {:induction false} NothingYet(table: map<Id, Id>, original: Id, r: L.Reservation, env: P.Env, draw: nat -> Entropy)
    ensures Drawn(draw, 0) == [] && Translations(table, original, []) == table
    ensures SendTranslated(original, r, [], [], env) == []
  {
  }

  datatype Finding = Dropped | Failed | Unknown | Stored(h: nat)

  lemma SoundTable(n: P.Node, id: Id)
    requires Index(n) && id in n.table
    ensures n.table[id] != SENTINEL
  {
  }

  /** One more translation, and one more EAR for it. */
  lemma OneMoreWinner(table: map<Id, Id>, original: Id, r: L.Reservation, winners: seq<Byte>, env: P.Env, draw: nat -> Entropy, i: nat)
    requires i < |winners| && forall j | 0 <= j <= i :: Direct(winners[j], env).Some?
    ensures var id, before := Id(original.time, draw(i)), Translations(table, original, Drawn(draw, i));
            Translations(table, original, Drawn(draw, i + 1)) == if id in before then before else before[id := original]
    ensures SendTranslated(original, r, winners[..i + 1], Drawn(draw, i + 1), env)
         == SendTranslated(original, r, winners[..i], Drawn(draw, i), env)
            + [P.Send(P.EAR(Id(original.time, draw(i)), r.priority, r.listener, P.Empty), Direct(winners[i], env).value)]
  {
    assert winners[..i + 1][..i] == winners[..i];
    assert Drawn(draw, i + 1)[..i] == Drawn(draw, i);
  }

  class Process {
    var store: map<Id, nat>
    var handlers: seq<Handler>
    var cells: Cells
    var slot: nat
    var table: map<Id, Id>
    var origins: set<Id>
    /** What was sent and reported so far. */
    var out: seq<P.Out>

    constructor ()
      ensures Valid() && Node() == P.INITIAL_NODE && out == [] && handlers == []
    {
      store, handlers, cells, slot, table, origins, out := map[], [], [], 0, map[], {}, [];
    }

    ghost predicate Valid()
      reads this
    {
      forall i, j | 0 <= i < j < |handlers| :: handlers[i] != handlers[j]
    }

    ghost function Node(): P.Node
      reads this, handlers
    {
      P.Node(store, Views(handlers), cells, slot, table, origins)
    }

    /** The method came out as the function says: it failed where the function crashes, and otherwise
        left its node and sent its output. */
    ghost predicate CameOut(o: P.Outcome, before: seq<P.Out>, ok: bool)
      reads this, handlers
    {
      && Valid() && (ok <==> o.Done?)
      && (ok ==> Node() == o.node && out == before + o.outs)
    }

    /** The node with the fields of handler h as they are now. */
    twostate lemma Updated(h: nat)
      requires old(Valid()) && h < |handlers| && handlers == old(handlers)
      requires forall i | 0 <= i < |handlers| && i != h :: unchanged(handlers[i])
      ensures Views(handlers) == old(Views(handlers))[h := handlers[h].View()]
    {
    }

    // ---- Small steps ----

    method SetState(h: nat, s: P.HandlerState)
      requires Valid() && h < |handlers|
      modifies handlers[h]
      ensures Valid() && Node() == P.Put(old(Node()), h, old(Node().handlers[h]).(state := s))
    {
      handlers[h].state := s;
      Updated(h);
    }

    method SetPointer(h: nat, p: P.Pointer)
      requires Valid() && h < |handlers|
      modifies handlers[h]
      ensures Valid() && Node() == P.Put(old(Node()), h, old(Node().handlers[h]).(ptr := p))
    {
      handlers[h].ptr := p;
      Updated(h);
    }

    method Send(m: P.Message, locator: Byte)
      modifies this`out
      ensures out == old(out) + [P.Send(m, locator)]
    {
      out := out + [P.Send(m, locator)];
    }

    /** Looking up the session's reservation, as every message does first. */
    method Resume(h: nat)
      requires Valid() && h < |handlers|
      modifies this`cells, handlers[h]
      ensures Valid() && Node() == Resumed(old(Node()), h)
    {
      var o := handlers[h];
      o.ptr := L.Adopted(cells, o.uuid);
      cells := L.Adopt(cells, o.uuid);
      Updated(h);
    }
  
    // ---- EAR ----

    method Forward(h: nat, env: P.Env, listener: Byte) returns (ok: bool)
      requires Valid() && h < |handlers|
      modifies this, handlers
      ensures handlers == old(handlers)
      ensures CameOut(H.Forward(old(Node()), h, env, listener), old(out), ok)
    {
      hide Views;
      hide L.Deref;
      hide L.Store;
      hide L.Repoint;
      hide P.Forwarded;
      hide Kept;
      hide SendEach;
      var o := handlers[h];
      var conns := MinDepth(env.conns(listener));
      if !o.source.Some? {
        return false;
      }
      if conns == [] {
        Send(P.REF(o.uuid), o.source.value);
        SetState(h, P.Closed);
        return true;
      }
      var r := MarkPast(h, o.source.value);
      if !r.Some? {
        return false;
      }
      PutThrice(old(Node()), h);
      if |conns| == 1 {
        SendAlone(h, P.EAR(o.uuid, r.value.priority, r.value.listener, P.Forwarded(r.value.caps)), conns[0].locator);
      } else {
        OpenAuction(h, P.MAR(o.uuid, r.value.priority, r.value.listener, P.Forwarded(r.value.caps)), conns);
      }
      return true;
    }

    method SendAlone(h: nat, m: P.Message, locator: Byte)
      requires Valid() && h < |handlers|
      modifies this`out, handlers[h]
      ensures Valid() && out == old(out) + [P.Send(m, locator)]
      ensures Node() == P.Put(old(Node()), h, old(Node()).handlers[h].(state := P.PreReserved))
    {
      hide Views;
      Send(m, locator);
      SetState(h, P.PreReserved);
    }

    /** Noting the past node in the reservation, through the handler's pointer. */
    method MarkPast(h: nat, past: Byte) returns (r: Option<L.Reservation>)
      requires Valid() && h < |handlers|
      modifies this`cells, handlers[h]
      ensures Valid() && r == L.Deref(old(cells), old(handlers[h].ptr))
      ensures r.Some? ==>
                var n, marked := old(Node()), r.value.(past := Some(past));
                Node() == P.Put(n.(cells := L.Store(n.cells, n.handlers[h].ptr, marked)), h,
                                n.handlers[h].(ptr := L.Repoint(n.handlers[h].ptr, marked)))
    {
      hide L.Deref;
      hide L.Store;
      hide L.Repoint;
      var o := handlers[h];
      r := L.Deref(cells, o.ptr);
      if r.Some? {
        cells := L.Store(cells, o.ptr, r.value.(past := Some(past)));
        o.ptr := L.Repoint(o.ptr, r.value.(past := Some(past)));
        Updated(h);
      }
    }

    /** As many bids to wait for as connections, and the request to each of them. */
    method OpenAuction(h: nat, m: P.Message, conns: seq<Conn>)
      requires Valid() && h < |handlers|
      modifies this`out, handlers[h]
      ensures Valid() && out == old(out) + SendEach(m, conns)
      ensures var hd := old(Node()).handlers[h];
              Node() == P.Put(old(Node()), h, hd.(state := P.AuctionWaiting,
                                                  tally := hd.tally.(waiting := |conns| % 256, arriving := 0)))
    {
      hide Views;
      SendToEach(m, conns);
      var o := handlers[h];
      o.tally := o.tally.(waiting := |conns| % 256, arriving := 0);
      o.state := P.AuctionWaiting;
      Updated(h);
    }

    method SendToEach(m: P.Message, conns: seq<Conn>)
      modifies this`out
      ensures out == old(out) + SendEach(m, conns)
    {
      for i := 0 to |conns|
        invariant out == old(out) + SendEach(m, conns[..i])
      {
        assert conns[..i + 1][..i] == conns[..i];
        Send(m, conns[i].locator);
      }
      assert conns[..|conns|] == conns;
    }

    method Refuse(h: nat, env: P.Env) returns (ok: bool)
      requires Valid() && h < |handlers|
      modifies this, handlers
      ensures handlers == old(handlers)
      ensures CameOut(H.Refuse(old(Node()), h, env), old(out), ok)
    {
      hide Views;
      hide Kept;
      var o := handlers[h];
      if !o.source.Some? {
        return false;
      }
      var conns := MinDepth(env.conns(o.source.value));
      if conns == [] {
        return false;
      }
      Send(P.REF(o.uuid), conns[0].locator);
      SetState(h, P.Closed);
      return true;
    }

    method Accept(h: nat, env: P.Env, position: nat) returns (ok: bool)
      requires Valid() && h < |handlers|
      modifies this, handlers
      ensures handlers == old(handlers)
      ensures CameOut(H.Accept(old(Node()), h, env, position), old(out), ok)
    {
      hide Views;
      hide L.MarkReserved;
      hide Kept;
      var o := handlers[h];
      var marked := L.MarkReserved(cells, L.Entry(position));
      if !marked.Some? || !o.source.Some? {
        return false;
      }
      cells := marked.value.cells;
      var conns := MinDepth(env.conns(o.source.value));
      if conns == [] {
        return false;
      }
      Answer(h, L.Entry(position), P.Reserved, P.ACC(o.uuid), conns[0].locator);
      return true;
    }

    method EarAtListener(h: nat, env: P.Env, priority: Byte) returns (ok: bool)
      requires Valid() && h < |handlers|
      modifies this, handlers
      ensures handlers == old(handlers)
      ensures CameOut(H.EarAtListener(old(Node()), h, env, priority), old(out), ok)
    {
      hide Views;
      hide L.Admit;
      hide H.Refuse;
      hide H.Accept;
      match L.Admit(cells, handlers[h].ptr, priority, env.offer, slot)
      case Fault => ok := false;
      case Refused(cells', ptr) =>
        cells := cells';
        SetPointer(h, ptr);
        ok := Refuse(h, env);
      case Accepted(cells', _) =>
        cells, slot := cells', slot + 1;
        ok := Accept(h, env, slot - 1);
    }

    method EarAtRelay(h: nat, env: P.Env, m: P.Message) returns (ok: bool)
      requires Valid() && h < |handlers| && m.EAR?
      modifies this, handlers
      ensures handlers == old(handlers)
      ensures CameOut(H.EarAtRelay(old(Node()), h, env, m), old(out), ok)
    {
      hide Views;
      hide L.Admit;
      hide L.MarkPreReserved;
      hide H.Refuse;
      hide H.Forward;
      match L.Admit(cells, handlers[h].ptr, m.priority, env.offer, slot)
      case Fault => ok := false;
      case Refused(cells', _) =>
        cells := cells';
        SetPointer(h, L.Null);
        ok := Refuse(h, env);
      case Accepted(cells', ptr) =>
        var marked := L.MarkPreReserved(cells', ptr, slot + 1);
        if !marked.Some? {
          return false;
        }
        cells, slot := marked.value.cells, slot + 2;
        SetPointer(h, marked.value.ptr);
        ok := Forward(h, env, m.listener);
    }

    /** A statement of the request takes the place of the reservation. */
    method Assess(h: nat, m: P.Message)
      requires Valid() && h < |handlers| && m.EAR?
      modifies handlers[h]
      ensures Valid()
      ensures var hd := old(Node()).handlers[h];
              Node() == P.Put(old(Node()), h, hd.(
                state := P.Assessing,
                ptr := L.Detached(Statement(hd.uuid, m.priority, Requested(m.payload), m.listener))))
    {
      hide Views;
      hide Statement;
      var o := handlers[h];
      o.state := P.Assessing;
      o.ptr := L.Detached(Statement(o.uuid, m.priority, Requested(m.payload), m.listener));
      Updated(h);
    }

    method OnEar(h: nat, env: P.Env, m: P.Message) returns (ok: bool)
      requires Valid() && h < |handlers| && m.EAR?
      modifies this, handlers
      ensures handlers == old(handlers)
      ensures CameOut(HandleEar(old(Node()), h, env, m), old(out), ok)
    {
      hide Views;
      hide L.Adopt;
      hide L.Adopted;
      hide L.LastOf;
      hide H.EarAtListener;
      hide H.EarAtRelay;
      hide H.Forward;
      hide Statement;
      hide Requested;
      Resume(h);
      ghost var n := Node();
      var o := handlers[h];
      if o.state != P.PreReserved {
        if m.payload.Malformed? {
          SetState(h, P.Closed);
          return true;
        }
        Assess(h, m);
      }
      PutAgain(n, h);
      if env.isMe(m.listener) {
        ok := EarAtListener(h, env, m.priority);
      } else if m.id in store && store[m.id] < |handlers| && handlers[store[m.id]].state == P.PreReserved {
        SetPointer(h, L.LastOf(cells, o.uuid, o.ptr));
        ok := Forward(h, env, m.listener);
      } else {
        ok := EarAtRelay(h, env, m);
      }
    }

    // ---- MAR and BID ----

    method OnMar(h: nat, env: P.Env, m: P.Message) returns (ok: bool)
      requires Valid() && h < |handlers| && m.MAR?
      modifies this, handlers
      ensures handlers == old(handlers)
      ensures CameOut(HandleMar(old(Node()), h, env, m), old(out), ok)
    {
      hide Views;
      hide L.Adopt;
      hide L.Adopted;
      hide H.AnswerMar;
      Resume(h);
      var o := handlers[h];
      if m.payload.Malformed? {
        SetState(h, P.Closed);
        return true;
      }
      ok := AnswerMar(h, env, m);
    }

    method AnswerMar(h: nat, env: P.Env, m: P.Message) returns (ok: bool)
      requires Valid() && h < |handlers| && m.MAR?
      modifies this, handlers
      ensures handlers == old(handlers)
      ensures CameOut(H.AnswerMar(old(Node()), h, env, m), old(out), ok)
    {
      hide Views;
      hide L.MarkPreReserved;
      hide Statement;
      hide Requested;
      var o := handlers[h];
      var ptr: P.Pointer := L.Detached(Statement(o.uuid, m.priority, Requested(m.payload), m.listener));
      if !o.source.Some? || env.conns(o.source.value) == [] {
        return false;
      }
      match L.Admit(cells, ptr, m.priority, env.offer, slot)
      case Fault => return false;
      case Refused(cells', ptr') =>
        cells := cells';
        Answer(h, ptr', P.Closed, P.BID(o.uuid, 0.0), o.source.value);
        return true;
      case Accepted(cells', _) =>
        var marked := L.MarkPreReserved(cells', L.Entry(slot), slot + 1);
        if !marked.Some? {
          return false;
        }
        cells, slot := marked.value.cells, slot + 2;
        Answer(h, marked.value.ptr, P.PreReserved,
               P.BID(o.uuid, cells'[|cells'| - 1].res.bid), env.conns(o.source.value)[0].locator);
        return true;
    }

    /** An answer goes out, and the handler is left with this reservation in this state. */
    method Answer(h: nat, ptr: P.Pointer, state: P.HandlerState, m: P.Message, locator: Byte)
      requires Valid() && h < |handlers|
      modifies this`out, handlers[h]
      ensures Valid() && out == old(out) + [P.Send(m, locator)]
      ensures Node() == P.Put(old(Node()), h, old(Node()).handlers[h].(ptr := ptr, state := state))
    {
      hide Views;
      Send(m, locator);
      var o := handlers[h];
      o.ptr, o.state := ptr, state;
      Updated(h);
    }

    method OnBid(h: nat, m: P.Message) returns (ok: bool)
      requires Valid() && h < |handlers| && m.BID?
      modifies this, handlers
      ensures handlers == old(handlers)
      ensures CameOut(HandleBid(old(Node()), h, m), old(out), ok)
    {
      hide Views;
      hide L.Adopt;
      hide L.Adopted;
      hide Arrive;
      Resume(h);
      var o := handlers[h];
      if o.state != P.AuctionWaiting {
        SetState(h, P.Closed);
        return true;
      }
      if !o.source.Some? {
        return false;
      }
      o.tally := Arrive(o.tally, Bid(m.value, o.source.value));
      o.running := true;
      Updated(h);
      return true;
    }
  
    // ---- The end of an auction ----

    /** The blocked thread goes on. `junk` is what the accumulator of create_translation starts with. */
    method Wake(h: nat, env: P.Env, draw: nat -> Entropy, junk: nat) returns (ok: bool)
      requires Valid() && h < |handlers| && junk < WORD_BOUND
      modifies this, handlers
      ensures handlers == old(handlers)
      ensures CameOut(H.Wake(old(Node()), h, env, draw), old(out), ok)
    {
      hide Views;
      hide L.Deref;
      hide Winners;
      hide Translations;
      hide SendTranslated;
      hide Drawn;
      var o := handlers[h];
      if o.tally.bids == [] {
        if !o.source.Some? {
          return false;
        }
        Send(P.REF(o.uuid), o.source.value);
        Park(h, P.Closed);
        return true;
      }
      var r := L.Deref(cells, o.ptr);
      if !r.Some? {
        return false;
      }
      var winners := MaxBids(o.tally.bids);
      if |winners| == 1 {
        if env.conns(winners[0]) == [] {
          return false;
        }
        Send(P.EAR(o.uuid, r.value.priority, r.value.listener, P.Empty), env.conns(winners[0])[0].locator);
      } else {
        ok := SplitTie(o.uuid, r.value, winners, env, draw, junk);
        if !ok {
          return false;
        }
      }
      Park(h, P.PreReserved);
      return true;
    }

    method Park(h: nat, s: P.HandlerState)
      requires Valid() && h < |handlers|
      modifies handlers[h]
      ensures Valid() && Node() == P.Put(old(Node()), h, old(Node().handlers[h]).(running := false, state := s))
    {
      handlers[h].running := false;
      handlers[h].state := s;
      Updated(h);
    }

    /** An EAR under an id of its own for each of the highest bidders. */
    method SplitTie(original: Id, r: L.Reservation, winners: seq<Byte>, env: P.Env, draw: nat -> Entropy, junk: nat)
      returns (ok: bool)
      requires junk < WORD_BOUND
      modifies this`table, this`out
      ensures ok <==> forall w <- winners :: Direct(w, env).Some?
      ensures ok ==> table == Translations(old(table), original, Drawn(draw, |winners|))
      ensures ok ==> out == old(out) + SendTranslated(original, r, winners, Drawn(draw, |winners|), env)
    {
      NothingYet(table, original, r, env, draw);
      hide Translations;
      hide SendTranslated;
      hide Drawn;
      for i := 0 to |winners|
        invariant forall j | 0 <= j < i :: Direct(winners[j], env).Some?
        invariant table == Translations(old(table), original, Drawn(draw, i))
        invariant out == old(out) + SendTranslated(original, r, winners[..i], Drawn(draw, i), env)
      {
        if env.conns(winners[i]) == [] {
          assert Direct(winners[i], env).None?;
          return false;
        }
        OneMoreWinner(old(table), original, r, winners, env, draw, i);
        var id := TranslationOf(original, junk, draw(i));
        if id !in table {
          table := table[id := original];
        }
        Send(P.EAR(id, r.priority, r.listener, P.Empty), env.conns(winners[i])[0].locator);
      }
      assert winners[..|winners|] == winners;
      return true;
    }

    // ---- ACC ----

    method OnAcc(h: nat, env: P.Env) returns (ok: bool)
      requires Valid() && h < |handlers|
      modifies this, handlers
      ensures handlers == old(handlers)
      ensures CameOut(HandleAcc(old(Node()), h, env), old(out), ok)
    {
      hide Views;
      hide L.MarkReserved;
      hide H.Linked;
      hide H.PassAccept;
      hide H.Rekeyed;
      Resume(h);
      var o := handlers[h];
      if o.state == P.Reserved {
        return true;
      }
      var marked := L.MarkReserved(cells, o.ptr);
      if !marked.Some? {
        return false;
      }
      cells := marked.value.cells;
      if o.uuid in table {
        ok := Rekey(h, table[o.uuid]);
        if !ok {
          return false;
        }
        ok := PassAccept(h, env);
      } else if o.uuid in origins {
        out := out + [P.Report(true, o.uuid)];
        Link(h);
        return true;
      } else {
        ok := PassAccept(h, env);
      }
    }

    /** The handler's entry moves to the original id. */
    method Rekey(h: nat, original: Id) returns (ok: bool)
      requires Valid() && h < |handlers|
      modifies this`store, handlers[h]
      ensures Valid() && ok == H.Rekeyed(old(Node()), h, original).Some?
      ensures ok ==> Node() == H.Rekeyed(old(Node()), h, original).value
    {
      hide Views;
      var o := handlers[h];
      var id := o.uuid;
      if id !in store {
        return false;
      }
      var entry := store[id];
      store := store - {id};
      if original !in store {
        store := store[original := entry];
      }
      o.uuid := original;
      Updated(h);
      return true;
    }

    method Link(h: nat)
      requires Valid() && h < |handlers|
      modifies this`cells, handlers[h]
      ensures Valid() && Node() == H.Linked(old(Node()), h)
    {
      hide Views;
      hide L.Deref;
      hide L.Store;
      var o := handlers[h];
      var r := L.Deref(cells, o.ptr);
      SetState(h, P.Reserved);
      if r.Some? && o.source.Some? {
        cells := L.Store(cells, o.ptr, r.value.(next := r.value.next + [o.source.value]));
      }
    }

    method PassAccept(h: nat, env: P.Env) returns (ok: bool)
      requires Valid() && h < |handlers|
      modifies this, handlers
      ensures handlers == old(handlers)
      ensures CameOut(H.PassAccept(old(Node()), h, env), old(out), ok)
    {
      hide Views;
      hide L.Deref;
      hide H.Linked;
      var o := handlers[h];
      var r := L.Deref(cells, o.ptr);
      if !r.Some? || !r.value.past.Some? {
        return false;
      }
      var port := P.Port(env.topology, r.value.past.value);
      if port.Some? {
        Send(P.ACC(o.uuid), port.value);
        Link(h);
      }
      return true;
    }

    // ---- REF ----

    method OnRef(h: nat, env: P.Env) returns (ok: bool)
      requires Valid() && h < |handlers|
      modifies this, handlers
      ensures handlers == old(handlers)
      ensures CameOut(HandleRef(old(Node()), h, env), old(out), ok)
    {
      hide Views;
      hide Resumed;
      hide H.Erased;
      hide H.TakeRefusal;
      Resume(h);
      ghost var n1 := Node();
      var id := handlers[h].uuid;
      ok := EraseKey(id);
      if !ok {
        return false;
      }
      ErasedShape(n1, id);
      ok := TakeRefusal(h, env);
    }

    method TakeRefusal(h: nat, env: P.Env) returns (ok: bool)
      requires Valid() && h < |handlers|
      modifies this, handlers
      ensures handlers == old(handlers)
      ensures CameOut(H.TakeRefusal(old(Node()), h, env), old(out), ok)
    {
      hide Views;
      hide H.PassRefusal;
      var id := handlers[h].uuid;
      ok := true;
      if id in table {
        var original := table[id];
        FallBack(h, id);
        if original in table {
          ok := PassRefusal(h, env);
        } else {
          SetState(h, P.Closed);
        }
      } else if id in origins {
        origins := origins - {id};
        out := out + [P.Report(false, id)];
        SetState(h, P.Closed);
      } else {
        ok := PassRefusal(h, env);
      }
    }

    /** The translation is dropped, and the handler takes the original id. */
    method FallBack(h: nat, id: Id)
      requires Valid() && h < |handlers| && id in table
      modifies this`table, handlers[h]
      ensures Valid()
      ensures var n := old(Node());
              Node() == P.Put(n.(table := n.table - {id}), h, n.handlers[h].(uuid := n.table[id]))
    {
      hide Views;
      handlers[h].uuid := table[id];
      table := table - {id};
      Updated(h);
    }

    /** The loop over the store erases the id when its handler's reservation is pre-reserved. */
    method EraseKey(id: Id) returns (ok: bool)
      requires Valid()
      modifies this`store
      ensures Valid() && ok == H.Erased(old(Node()), id).Some?
      ensures ok ==> Node() == H.Erased(old(Node()), id).value
    {
      hide Views;
      hide L.Deref;
      if id !in store {
        return true;
      }
      if store[id] >= |handlers| {
        return false;
      }
      var ptr := handlers[store[id]].ptr;
      if ptr.Null? {
        return true;
      }
      var r := L.Deref(cells, ptr);
      if !r.Some? {
        return false;
      }
      if r.value.state == L.PreReserved {
        store := store - {id};
      }
      return true;
    }

    method PassRefusal(h: nat, env: P.Env) returns (ok: bool)
      requires Valid() && h < |handlers|
      modifies this, handlers
      ensures handlers == old(handlers)
      ensures CameOut(H.PassRefusal(old(Node()), h, env), old(out), ok)
    {
      hide Views;
      var o := handlers[h];
      if !o.source.Some? {
        return false;
      }
      var port := P.Port(env.topology, o.source.value);
      if port.Some? {
        Send(P.REF(o.uuid), port.value);
        SetState(h, P.Closed);
      }
      return true;
    }

    // ---- REP and timeouts ----

    method OnRep(h: nat, env: P.Env, m: P.Message) returns (ok: bool)
      requires Valid() && h < |handlers| && m.REP?
      modifies this, handlers
      ensures handlers == old(handlers)
      ensures CameOut(HandleRep(old(Node()), h, env, m), old(out), ok)
    {
      hide Views;
      hide L.Deref;
      hide L.Adopt;
      hide L.Adopted;
      hide SendAlong;
      Resume(h);
      ghost var n := Node();
      var o := handlers[h];
      SetState(h, P.Replenishing);
      PutTwice(n, h, n.handlers[h].(state := P.Replenishing), n.handlers[h].(state := P.Closed));
      if env.isMe(m.listener) {
        if !o.source.Some? || env.conns(o.source.value) == [] {
          return false;
        }
        Send(P.REF(o.uuid), env.conns(o.source.value)[0].locator);
        SetState(h, P.Closed);
        return true;
      }
      if o.uuid !in store {
        SetState(h, P.Closed);
        return true;
      }
      var r := L.Deref(cells, o.ptr);
      if !r.Some? {
        return false;
      }
      ok := SendOnAlong(P.REP(o.uuid, r.value.listener), r.value.next, env);
    }

    method SendOnAlong(m: P.Message, next: seq<Byte>, env: P.Env) returns (ok: bool)
      modifies this`out
      ensures ok <==> forall a <- next :: Direct(a, env).Some?
      ensures ok ==> out == old(out) + SendAlong(m, next, env)
    {
      for i := 0 to |next|
        invariant forall j | 0 <= j < i :: Direct(next[j], env).Some?
        invariant out == old(out) + SendAlong(m, next[..i], env)
      {
        if env.conns(next[i]) == [] {
          assert Direct(next[i], env).None?;
          return false;
        }
        assert next[..i + 1][..i] == next[..i];
        Send(m, env.conns(next[i])[0].locator);
      }
      assert next[..|next|] == next;
      return true;
    }

    /** on_ear_timeout and its likes. */
    method OnTimeout(h: nat, timer: Timer) returns (ok: bool)
      requires Valid() && h < |handlers|
      modifies this, handlers
      ensures handlers == old(handlers)
      ensures CameOut(Expire(old(Node()), h, timer), old(out), ok)
    {
      hide Views;
      hide L.Replenish;
      var o := handlers[h];
      if o.state == P.Closed || (o.state == P.Reserved && !timer.RepTimer?) {
        return true;
      }
      var rest := L.Replenish(cells, o.ptr);
      if !rest.Some? {
        return false;
      }
      cells := rest.value;
      o.state := P.Closed;
      if !timer.RepTimer? {
        o.tally := o.tally.(bids := []);
      }
      Updated(h);
      return true;
    }

    // ---- Process ----

    method OnMessage(h: nat, env: P.Env, m: P.Message) returns (ok: bool)
      requires Valid() && h < |handlers|
      modifies this, handlers
      ensures handlers == old(handlers)
      ensures CameOut(Handle(old(Node()), h, env, m), old(out), ok)
    {
      hide HandleEar;
      hide HandleMar;
      hide HandleBid;
      hide HandleAcc;
      hide HandleRef;
      hide HandleRep;
      match m
      case EAR(_, _, _, _) => ok := OnEar(h, env, m);
      case MAR(_, _, _, _) => ok := OnMar(h, env, m);
      case BID(_, _) => ok := OnBid(h, m);
      case ACC(_) => ok := OnAcc(h, env);
      case REF(_) => ok := OnRef(h, env);
      case REP(_, _) => ok := OnRep(h, env, m);
    }

    /** The first loop of is_uuid_in_store, and its test: does any key share the time stamp? */
    method IsKnown(id: Id) returns (known: bool)
      requires Valid()
      ensures known <==> Known(Node(), id.time)
    {
      var keys := store.Keys;
      known := false;
      while keys != {}
        invariant keys <= store.Keys
        invariant known <==> exists k <- store.Keys - keys :: k.time == id.time
      {
        var k :| k in keys;
        if k.time == id.time {
          known := true;
        }
        keys := keys - {k};
      }
    }

    /** is_uuid_in_store without the test flag: another key of the session is renamed to the id. */
    method Rename(id: Id)
      requires Valid() && Index(Node()) && id != SENTINEL
      modifies this`store, handlers
      ensures Valid() && handlers == old(handlers) && Some(Node()) == Renamed(old(Node()), id)
    {
      hide Keys;
      hide Views;
      hide Settled;
      var other := OtherKey(id);
      if other != SENTINEL {
        RenamingKeepsIndex(Node(), id, other);
        StoredBelow(Node());
        hide Index;
        ghost var n := Node();
        assert forall k :: Elsewhere(n, id, k) ==> k == other;
        var h := store[other];
        handlers[h].uuid := id;
        Updated(h);
        store := store[id := h] - {other};
      }
    }

    /** The second loop: a key of the session that is not the id itself, or the sentinel. */
    method OtherKey(id: Id) returns (other: Id)
      requires Valid() && Index(Node())
      ensures other == SENTINEL <==> forall k :: !Elsewhere(Node(), id, k)
      ensures other != SENTINEL ==> Elsewhere(Node(), id, other)
    {
      StoredBelow(Node());
      hide Index;
      var keys := store.Keys;
      while keys != {}
        invariant keys <= store.Keys
        invariant forall k <- store.Keys - keys :: k.time != id.time || k == id
      {
        var k :| k in keys;
        if k.time == id.time && k != id {
          assert Elsewhere(Node(), id, k);
          return k;
        }
        keys := keys - {k};
      }
      return SENTINEL;
    }

    /** create_handler, and the new entry of the store. */
    method CreateHandler(id: Id) returns (h: nat)
      requires Valid()
      modifies this`store, this`handlers
      ensures Valid() && Node() == Created(old(Node()), id) && h == |old(handlers)| < |handlers|
      ensures fresh(handlers[h]) && handlers[..h] == old(handlers)
    {
      var o := new Handler(id);
      h := |handlers|;
      handlers := handlers + [o];
      store := store[id := h];
      assert handlers[..h] == old(handlers);
    }
  
    method IsOriginFor(id: Id) returns (origin: bool)
      requires Valid()
      ensures origin <==> IsOrigin(Node(), id.time)
    {
      var ids := origins;
      origin := false;
      while ids != {}
        invariant ids <= origins
        invariant origin <==> exists o <- origins - ids :: o.time == id.time
      {
        var o :| o in ids;
        if o.time == id.time {
          origin := true;
        }
        ids := ids - {o};
      }
    }

    /** From a message to the handler in the store, if it gets that far. */
    method Find(env: P.Env, m: P.Message) returns (found: Finding)
      requires Valid() && Index(Node()) && m.id != SENTINEL
      modifies this`store, handlers
      ensures Valid() && handlers == old(handlers) && Reached(Locate(old(Node()), env, m), found)
      ensures found.Unknown? ==> Node() == old(Node())
    {
      hide Views;
      hide Renamed;
      hide Index;
      hide Known;
      hide IsOrigin;
      hide Fetch;
      var origin := IsOriginFor(m.id);
      var known := IsKnown(m.id);
      var mine := m.EAR? && env.isMe(m.listener) && known;
      if known && IsRequest(m) {
        return Dropped;
      }
      if !known {
        return Unknown;
      }
      if !origin && !mine {
        RenameKeepsIndex(Node(), m.id);
        Rename(m.id);
      }
      if mine && m.id !in store {
        return Dropped;
      }
      found := Translated(m.id, origin);
    }

    /** At an origin the id may be a translation; then the handler is fetched from the store. */
    method Translated(uuid: Id, origin: bool) returns (found: Finding)
      requires Valid() && Index(Node()) && uuid != SENTINEL
      modifies this`store, handlers
      ensures Valid() && handlers == old(handlers) && !found.Unknown?
      ensures var n := old(Node());
              Reached(Fetch(n, if origin && uuid in n.table then n.table[uuid] else uuid), found)
    {
      hide Views;
      hide Renamed;
      var id := uuid;
      if origin && id in table {
        SoundTable(Node(), id);
        id := table[id];
      }
      hide Index;
      if id !in store {
        return Failed;
      }
      var h := Get(id);
      return Stored(h);
    }

    /** get_handler of a stored id: other keys of the session are renamed first. */
    method Get(id: Id) returns (h: nat)
      requires Valid() && Index(Node()) && id != SENTINEL && id in store
      modifies this`store, handlers
      ensures Valid() && handlers == old(handlers) && Some(Node()) == Renamed(old(Node()), id)
      ensures id in store && h == store[id] < |handlers|
    {
      hide Views;
      hide Renamed;
      RenameKeepsIndex(Node(), id);
      Rename(id);
      StoredBelow(Node());
      hide Index;
      h := store[id];
    }

    /** The lookup came out as the function says. */
    ghost predicate Reached(place: Lookup, found: Finding)
      reads this, handlers
    {
      match place
      case Nowhere(n) => found == Dropped && Node() == n
      case Missing => found == Failed
      case Fresh => found == Unknown
      case Found(n, h) => found == Stored(h) && Node() == n
    }

    /** One turn of the loop of Process: route the message, create or resume a handler, and run it until
        it stops. */
    method Deliver(env: P.Env, source: Byte, m: P.Message) returns (ok: bool)
      requires Valid() && Index(Node()) && m.id != SENTINEL
      modifies this, handlers
      ensures CameOut(Pr.Deliver(old(Node()), env, source, m), old(out), ok)
    {
      hide Views;
      hide Locate;
      hide Handle;
      hide Index;
      ghost var n := Node();
      LocateKeepsIndex(n, env, m);
      var found := Find(env, m);
      match found
      case Dropped => return true;
      case Failed => return false;
      case Unknown =>
        var h := CreateHandler(m.id);
        ok := Hand(h, env, source, m);
      case Stored(h) =>
        var o := handlers[h];
        if o.running {
          if o.state == P.AuctionWaiting && m.BID? {
            LeaveBid(h, Bid(m.value, source));
          }
          return true;
        }
        if !Listens(o.state) {
          return true;
        }
        ok := Hand(h, env, source, m);
    }

    /** new_bid */
    method LeaveBid(h: nat, bid: Bid)
      requires Valid() && h < |handlers|
      modifies handlers[h]
      ensures Valid()
      ensures var hd := old(Node()).handlers[h]; Node() == P.Put(old(Node()), h, hd.(tally := Arrive(hd.tally, bid)))
    {
      handlers[h].tally := Arrive(handlers[h].tally, bid);
      Updated(h);
    }

    /** The handler resumes with the message. */
    method Hand(h: nat, env: P.Env, source: Byte, m: P.Message) returns (ok: bool)
      requires Valid() && h < |handlers|
      modifies this, handlers
      ensures handlers == old(handlers)
      ensures var n := old(Node());
              CameOut(Handle(P.Put(n, h, Marked(n.handlers[h], m, source)), h, env, m), old(out), ok)
    {
      Mark(h, m, source);
      ok := OnMessage(h, env, m);
    }

    /** One event: a message, a timeout, the end of an auction, or an origin id from the application. */
    method Take(env: P.Env, e: Event, junk: nat) returns (ok: bool)
      requires Valid() && Index(Node()) && (e.Arrival? ==> e.msg.id != SENTINEL) && junk < WORD_BOUND
      modifies this, handlers
      ensures CameOut(Step(old(Node()), env, e), old(out), ok)
    {
      hide Views;
      hide Index;
      hide Pr.Deliver;
      hide H.Wake;
      hide Expire;
      ok := true;
      match e
      case Arrival(source, m) => ok := Deliver(env, source, m);
      case Timeout(h, timer) =>
        if h < |handlers| {
          ok := OnTimeout(h, timer);
        }
      case Awakening(h, draw) =>
        if h < |handlers| && handlers[h].running {
          ok := Wake(h, env, draw, junk);
        }
      case OriginMark(id) => origins := origins + {id};
    }

    /** Noting where the message came from. */
    method Mark(h: nat, m: P.Message, source: Byte)
      requires Valid() && h < |handlers|
      modifies handlers[h]
      ensures Valid() && Node() == P.Put(old(Node()), h, Marked(old(Node().handlers[h]), m, source))
    {
      hide Views;
      if !m.REF? {
        handlers[h].source := Some(source);
      }
      Updated(h);
    }
  }
}
