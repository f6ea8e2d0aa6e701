/** What comes of each message and timeout at a node: what goes out, to where, and what the session is
    left with. The ways back are told by positions in the topology. */
module Outcomes {
  import opened Basics
  import opened Identifiers
  import opened Capabilities
  import opened Routes
  import opened Auction
  import opened Protocol
  import opened Handlers
  import opened Processes
  import opened Sessions
  import opened Isolation
  import opened Acceptance
  import opened Requests
  import opened Passage
  import L = Ledger

  /** One message, to the port at which the topology holds the address. */
  ghost predicate SentTo(outs: seq<Out>, m: Message, topology: seq<Byte>, a: Byte)
  {
    && |outs| == 1 && outs[0].Send? && outs[0].msg == m
    && (|topology| <= 256 ==> LeadsTo(topology, outs[0].locator, a))
  }

  // ---- ACC ----

  /** Marking the only entry of a session reserves it and touches nothing else. */
  lemma {:induction false} MarksSole(cells: Cells, k: nat)
    requires k < |cells| && L.Distinct(cells) && L.Markable(cells[k].res)
    requires forall i | 0 <= i < |cells| && i != k :: TimeOf(cells[i]) != TimeOf(cells[k])
    ensures L.MarkReserved(cells, L.Entry(cells[k].addr))
         == Some(L.Marked(Rewritten(cells, k, L.Reserve(cells[k].res)), L.Entry(cells[k].addr)))
  {
    hide SameKinds;
    var r := cells[k].res;
    L.PositionIs(cells, cells[k].addr, k);
    L.SameReflexive(r);
    assert L.ReserveFirst(cells, r, k + 1) == Rewritten(cells, k, L.Reserve(r));
  }

  /** The reservation once the acceptance is taken: reserved, with the node it came from as its last
      next node. */
  function Taken(r: L.Reservation, id: Id, source: Byte): L.Reservation
  {
    r.(uuid := id, state := L.Reserved, next := r.next + [source])
  }

  function TakenNode(n: Node, h: nat, id: Id, k: nat, source: Byte): Node
    requires h < |n.handlers| && k < |n.cells|
  {
    Put(n.(cells := Rewritten(n.cells, k, Taken(n.cells[k].res, id, source))), h,
        n.handlers[h].(state := Reserved, source := Some(source)))
  }

  /** The entry is looked up and marked. */
  lemma {:induction false} AccMarks(n: Node, h: nat, id: Id, k: nat)
    requires Sole(n, h, id, k) && L.Markable(n.cells[k].res)
    ensures var n', r := Resumed(n, h), n.cells[k].res.(uuid := id, state := L.Reserved);
            && n' == n.(cells := Rewritten(n.cells, k, n.cells[k].res.(uuid := id)))
            && L.MarkReserved(n'.cells, n'.handlers[h].ptr)
               == Some(L.Marked(Rewritten(n.cells, k, r), n.handlers[h].ptr))
            && L.Deref(Rewritten(n.cells, k, r), n.handlers[h].ptr) == Some(r)
  {
    hide Resumed;
    hide L.MarkReserved;
    SoleResumed(n, h, id, k);
    var n', r := Resumed(n, h), n.cells[k].res.(uuid := id, state := L.Reserved);
    MarksSole(n'.cells, k);
    var marked := Rewritten(n.cells, k, r);
    assert Rewritten(n'.cells, k, L.Reserve(n'.cells[k].res)) == marked;
    assert forall i | 0 <= i < |marked| :: marked[i].addr == n.cells[i].addr;
    L.PositionIs(marked, n.cells[k].addr, k);
  }

  lemma {:induction false} Links(n: Node, h: nat, id: Id, k: nat, source: Byte)
    requires h < |n.handlers| && k < |n.cells| && n.handlers[h].source == Some(source)
    requires L.Distinct(n.cells) && n.handlers[h].ptr == L.Entry(n.cells[k].addr)
    ensures var r := n.cells[k].res;
            Linked(n, h) == Put(n.(cells := Rewritten(n.cells, k, r.(next := r.next + [source]))), h,
                                n.handlers[h].(state := Reserved))
  {
    L.PositionIs(n.cells, n.cells[k].addr, k);
  }

  lemma {:induction false} LinksTaken(n: Node, h: nat, id: Id, k: nat, source: Byte)
    requires Sole(n, h, id, k) && n.handlers[h].source == Some(source)
    ensures var r := n.cells[k].res.(uuid := id, state := L.Reserved);
            var n' := n.(cells := Rewritten(n.cells, k, r));
            Linked(n', h) == TakenNode(n, h, id, k, source)
  {
    hide Linked;
    var r := n.cells[k].res.(uuid := id, state := L.Reserved);
    var n' := n.(cells := Rewritten(n.cells, k, r));
    assert forall i | 0 <= i < |n'.cells| :: n'.cells[i].addr == n.cells[i].addr;
    Links(n', h, id, k, source);
    assert Rewritten(n'.cells, k, r.(next := r.next + [source])) == Rewritten(n.cells, k, Taken(n.cells[k].res, id, source));
  }

  /** At the origin of that id the acceptance is reported, whatever the topology. */
  lemma {:induction false} AccReported(n: Node, h: nat, env: Env, id: Id, k: nat, source: Byte)
    requires Sole(n, h, id, k) && n.handlers[h].source == Some(source) && n.handlers[h].state != Reserved
    requires L.Markable(n.cells[k].res) && id !in n.table && id in n.origins
    ensures HandleAcc(n, h, env) == Done(TakenNode(n, h, id, k, source), [Report(true, id)])
  {
    hide Resumed;
    hide Linked;
    hide L.MarkReserved;
    hide L.Deref;
    AccMarks(n, h, id, k);
    LinksTaken(n, h, id, k, source);
  }

  lemma {:induction false} AccPassedOn(n: Node, h: nat, env: Env, id: Id, k: nat, source: Byte)
    requires Sole(n, h, id, k) && n.handlers[h].source == Some(source) && n.handlers[h].state != Reserved
    requires L.Markable(n.cells[k].res) && id !in n.table && id !in n.origins
    requires n.cells[k].res.past.Some? && n.cells[k].res.past.value in env.topology
    ensures var o := HandleAcc(n, h, env);
            && o.Done? && o.node == TakenNode(n, h, id, k, source)
            && SentTo(o.outs, ACC(id), env.topology, n.cells[k].res.past.value)
  {
    hide Resumed;
    hide Linked;
    hide L.MarkReserved;
    hide L.Deref;
    hide Port;
    AccMarks(n, h, id, k);
    LinksTaken(n, h, id, k, source);
  }

  /** At a node that split a tie, the acceptance of a part goes back under the session's own id. */
  lemma {:induction false} AccTranslated(n: Node, h: nat, env: Env, id: Id, k: nat, source: Byte)
    requires Sole(n, h, id, k) && n.handlers[h].source == Some(source) && n.handlers[h].state != Reserved
    requires L.Markable(n.cells[k].res) && id in n.table && n.table[id].time == id.time
    requires n.cells[k].res.past.Some? && n.cells[k].res.past.value in env.topology
    ensures var o := HandleAcc(n, h, env);
            && o.Done? && o.node == Rekeying(TakenNode(n, h, id, k, source), h, id, n.table[id])
            && SentTo(o.outs, ACC(n.table[id]), env.topology, n.cells[k].res.past.value)
  {
    hide Resumed;
    hide Linked;
    hide L.MarkReserved;
    hide L.Deref;
    hide Port;
    AccMarks(n, h, id, k);
    var r := n.cells[k].res.(uuid := id, state := L.Reserved);
    var n1 := n.(cells := Rewritten(n.cells, k, r));
    var n2 := Rekeying(n1, h, id, n.table[id]);
    assert n.table[id] !in n.store - {id};
    assert Rekeyed(n1, h, n.table[id]) == Some(n2);
    assert forall i | 0 <= i < |n2.cells| :: n2.cells[i].addr == n.cells[i].addr;
    Links(n2, h, id, k, source);
    assert Rewritten(n2.cells, k, r.(next := r.next + [source])) == Rewritten(n.cells, k, Taken(n.cells[k].res, id, source));
    assert Linked(n2, h) == Rekeying(TakenNode(n, h, id, k, source), h, id, n.table[id]);
  }

  // ---- An acceptance arrives ----

  lemma {:induction false} TakenIsSole(n: Node, h: nat, id: Id, k: nat, source: Byte)
    requires Sole(n, h, id, k)
    ensures Sole(TakenNode(n, h, id, k, source), h, id, k)
  {
    var n' := TakenNode(n, h, id, k, source);
    assert forall i | 0 <= i < |n'.cells| :: n'.cells[i].addr == n.cells[i].addr;
  }

  ghost predicate Open(n: Node, h: nat, id: Id, k: nat)
  {
    && Sole(n, h, id, k) && id != SENTINEL && !n.handlers[h].running && Listens(n.handlers[h].state)
  }

  /** The origin of a session takes an ACC for it, under its own id or under one it split a tie with,
      reports success of its own id, and reserves its entry. */
  lemma {:induction false} SuccessReported(n: Node, h: nat, env: Env, source: Byte, t: Id, id: Id, k: nat)
    requires Open(n, h, id, k) && n.handlers[h].state != Reserved && L.Markable(n.cells[k].res)
    requires id in n.origins && id !in n.table && t.time == id.time && (t != id ==> t in n.table && n.table[t] == id)
    ensures Deliver(n, env, source, ACC(t)) == Done(TakenNode(n, h, id, k, source), [Report(true, id)])
    ensures t != SENTINEL ==> Sound(n, env, Arrival(source, ACC(t)))
  {
    hide Routed;
    hide HandleAcc;
    assert IsOrigin(n, id.time);
    SoleRouted(n, h, env, source, ACC(t), id, k);
    RekeyingSame(n, h, id, k);
    AccReported(Put(n, h, n.handlers[h].(source := Some(source))), h, env, id, k, source);
    hide Reservation;
  }

  /** Any other node takes it under the id it comes with, reserves its entry, and passes it on to the
      port of its past node. */
  lemma {:induction false} SuccessPassedOn(n: Node, h: nat, env: Env, source: Byte, t: Id, id: Id, k: nat)
    requires Open(n, h, id, k) && n.handlers[h].state != Reserved && L.Markable(n.cells[k].res)
    requires !IsOrigin(n, id.time) && t.time == id.time && t !in n.table
    requires n.cells[k].res.past.Some? && n.cells[k].res.past.value in env.topology
    ensures var o := Deliver(n, env, source, ACC(t));
            && o.Done? && o.node == TakenNode(Rekeying(n, h, id, t), h, t, k, source)
            && SentTo(o.outs, ACC(t), env.topology, n.cells[k].res.past.value)
    ensures t != SENTINEL ==> Sound(n, env, Arrival(source, ACC(t)))
  {
    hide Routed;
    hide HandleAcc;
    assert t !in n.origins;
    SoleRouted(n, h, env, source, ACC(t), id, k);
    var n' := Rekeying(n, h, id, t);
    var n'' := Put(n', h, n'.handlers[h].(source := Some(source)));
    AccPassedOn(n'', h, env, t, k, source);
    SoleResumed(n'', h, t, k);
    hide Reservation;
  }

  /** ... or, if it is a part of a tie that this node split, under the session's own id. */
  lemma {:induction false} SuccessTranslated(n: Node, h: nat, env: Env, source: Byte, t: Id, id: Id, k: nat)
    requires Open(n, h, id, k) && n.handlers[h].state != Reserved && L.Markable(n.cells[k].res)
    requires !IsOrigin(n, id.time) && t.time == id.time && t in n.table && n.table[t].time == t.time
    requires n.cells[k].res.past.Some? && n.cells[k].res.past.value in env.topology
    ensures var o, original := Deliver(n, env, source, ACC(t)), n.table[t];
            && o.Done? && o.node == Rekeying(TakenNode(Rekeying(n, h, id, t), h, t, k, source), h, t, original)
            && SentTo(o.outs, ACC(original), env.topology, n.cells[k].res.past.value)
  {
    hide Routed;
    hide HandleAcc;
    SoleRouted(n, h, env, source, ACC(t), id, k);
    var n' := Rekeying(n, h, id, t);
    AccTranslated(Put(n', h, n'.handlers[h].(source := Some(source))), h, env, t, k, source);
  }

  // ---- REF ----

  /** A refusal makes the store forget the key, exactly if the entry is pre-reserved; so a request for
      the session is new again. The entry stays where it is. */
  function Forgetting(n: Node, h: nat, id: Id, k: nat): Node
    requires h < |n.handlers| && k < |n.cells|
  {
    var n' := n.(cells := Rewritten(n.cells, k, n.cells[k].res.(uuid := id)));
    if n.cells[k].res.state == L.PreReserved then n'.(store := n.store - {id}) else n'
  }

  lemma {:induction false} RefForgets(n: Node, h: nat, id: Id, k: nat)
    requires Sole(n, h, id, k)
    ensures Erased(Resumed(n, h), id) == Some(Forgetting(n, h, id, k))
    ensures n.cells[k].res.state == L.PreReserved <==> id !in Forgetting(n, h, id, k).store
    ensures n.cells[k].res.state == L.PreReserved ==> !Known(Forgetting(n, h, id, k), id.time)
  {
    hide Resumed;
    hide L.Deref;
    SoleResumed(n, h, id, k);
  }

  /** A request for a session that was forgotten is given a handler of its own, like a first one. */
  lemma {:induction false} ForgottenIsNew(n: Node, h: nat, env: Env, source: Byte, m: Message, id: Id, k: nat)
    requires Sole(n, h, id, k) && n.cells[k].res.state == L.PreReserved && m.id.time == id.time && !m.REF?
    ensures var n', h' := ClosedNode(Forgetting(n, h, id, k), h), |n.handlers|;
            Routed(n', env, source, m)
            == Handed(n'.(store := n'.store[m.id := h'], handlers := n'.handlers + [NewHandler(m.id).(source := Some(source))]), h')
  {
    hide Renamed;
    var n' := ClosedNode(Forgetting(n, h, id, k), h);
    PutLast(n', m.id, NewHandler(m.id).(source := Some(source)));
    assert !Known(n', id.time);
  }

  /** The session of that id is closed at this node, without anything else. */
  function ClosedNode(n: Node, h: nat): Node
    requires h < |n.handlers|
  {
    Put(n, h, n.handlers[h].(state := Closed))
  }

  lemma {:induction false} RefReported(n: Node, h: nat, env: Env, id: Id, k: nat)
    requires Sole(n, h, id, k) && id !in n.table && id in n.origins
    ensures HandleRef(n, h, env)
         == Done(ClosedNode(Forgetting(n, h, id, k), h).(origins := n.origins - {id}), [Report(false, id)])
  {
    hide Resumed;
    hide Erased;
    hide PassRefusal;
    SoleResumed(n, h, id, k);
    RefForgets(n, h, id, k);
  }

  lemma {:induction false} RefPassedOn(n: Node, h: nat, env: Env, id: Id, k: nat)
    requires Sole(n, h, id, k) && id !in n.table && id !in n.origins
    requires n.handlers[h].source.Some? && n.handlers[h].source.value in env.topology
    ensures var o := HandleRef(n, h, env);
            && o.Done? && o.node == ClosedNode(Forgetting(n, h, id, k), h)
            && SentTo(o.outs, REF(id), env.topology, n.handlers[h].source.value)
  {
    hide Resumed;
    hide Erased;
    hide Port;
    SoleResumed(n, h, id, k);
    RefForgets(n, h, id, k);
  }

  lemma {:induction false} RefDropped(n: Node, h: nat, env: Env, id: Id, k: nat)
    requires Sole(n, h, id, k) && id in n.table && n.table[id] !in n.table - {id}
    ensures var n' := Forgetting(n, h, id, k);
            HandleRef(n, h, env)
            == Done(Put(n'.(table := n.table - {id}), h, n.handlers[h].(uuid := n.table[id], state := Closed)), [])
  {
    hide Resumed;
    hide Erased;
    hide PassRefusal;
    SoleResumed(n, h, id, k);
    RefForgets(n, h, id, k);
  }

  lemma {:induction false} RefTranslated(n: Node, h: nat, env: Env, id: Id, k: nat)
    requires Sole(n, h, id, k) && id in n.table && n.table[id] in n.table - {id}
    requires n.handlers[h].source.Some? && n.handlers[h].source.value in env.topology
    ensures var o, n' := HandleRef(n, h, env), Forgetting(n, h, id, k);
            && o.Done? && SentTo(o.outs, REF(n.table[id]), env.topology, n.handlers[h].source.value)
            && o.node == Put(n'.(table := n.table - {id}), h, n.handlers[h].(uuid := n.table[id], state := Closed))
  {
    hide Resumed;
    hide Erased;
    hide Port;
    SoleResumed(n, h, id, k);
    RefForgets(n, h, id, k);
  }

  /** The origin of a session takes a REF for it, under its own id or one it split a tie with: it
      reports failure of its own id, which is no origin any more, and closes. */
  lemma {:induction false} FailureReported(n: Node, h: nat, env: Env, source: Byte, t: Id, id: Id, k: nat)
    requires Open(n, h, id, k) && id in n.origins && id !in n.table
    requires t.time == id.time && (t != id ==> t in n.table && n.table[t] == id)
    ensures Deliver(n, env, source, REF(t))
         == Done(ClosedNode(Forgetting(n, h, id, k), h).(origins := n.origins - {id}), [Report(false, id)])
    ensures t != SENTINEL ==> Sound(n, env, Arrival(source, REF(t)))
  {
    hide Routed;
    hide HandleRef;
    assert IsOrigin(n, id.time);
    SoleRouted(n, h, env, source, REF(t), id, k);
    RekeyingSame(n, h, id, k);
    assert Put(n, h, n.handlers[h]) == n;
    RefReported(n, h, env, id, k);
  }

  /** Any other node passes exactly one REF of the id it came with to the port of its source, closes,
      and forgets the session if its entry is pre-reserved. */
  lemma {:induction false} FailurePassedOn(n: Node, h: nat, env: Env, source: Byte, t: Id, id: Id, k: nat)
    requires Open(n, h, id, k) && !IsOrigin(n, id.time) && t.time == id.time && t !in n.table
    requires n.handlers[h].source.Some? && n.handlers[h].source.value in env.topology
    ensures var o := Deliver(n, env, source, REF(t));
            && o.Done? && o.node == ClosedNode(Forgetting(Rekeying(n, h, id, t), h, t, k), h)
            && SentTo(o.outs, REF(t), env.topology, n.handlers[h].source.value)
    ensures t != SENTINEL ==> Sound(n, env, Arrival(source, REF(t)))
  {
    hide Routed;
    hide HandleRef;
    assert t !in n.origins;
    SoleRouted(n, h, env, source, REF(t), id, k);
    var n' := Rekeying(n, h, id, t);
    assert Put(n', h, n'.handlers[h]) == n';
    RefPassedOn(n', h, env, t, k);
  }

  /** ... unless it is a part of a tie that this node split: then the part's translation is dropped and
      the session closed, silently. */
  lemma {:induction false} FailureDropped(n: Node, h: nat, env: Env, source: Byte, t: Id, id: Id, k: nat)
    requires Open(n, h, id, k) && !IsOrigin(n, id.time) && t.time == id.time
    requires t in n.table && n.table[t] !in n.table - {t}
    ensures var n' := Forgetting(Rekeying(n, h, id, t), h, t, k);
            Deliver(n, env, source, REF(t))
            == Done(Put(n'.(table := n.table - {t}), h, n.handlers[h].(uuid := n.table[t], state := Closed)), [])
  {
    hide Routed;
    hide HandleRef;
    SoleRouted(n, h, env, source, REF(t), id, k);
    var n' := Rekeying(n, h, id, t);
    assert Put(n', h, n'.handlers[h]) == n';
    RefDropped(n', h, env, t, k);
  }

  /** A part of a part goes back under the id that it was split from. */
  lemma {:induction false} FailureTranslated(n: Node, h: nat, env: Env, source: Byte, t: Id, id: Id, k: nat)
    requires Open(n, h, id, k) && !IsOrigin(n, id.time) && t.time == id.time
    requires t in n.table && n.table[t] in n.table - {t}
    requires n.handlers[h].source.Some? && n.handlers[h].source.value in env.topology
    ensures var o, n' := Deliver(n, env, source, REF(t)), Forgetting(Rekeying(n, h, id, t), h, t, k);
            && o.Done? && SentTo(o.outs, REF(n.table[t]), env.topology, n.handlers[h].source.value)
            && o.node == Put(n'.(table := n.table - {t}), h, n.handlers[h].(uuid := n.table[t], state := Closed))
  {
    hide Routed;
    hide HandleRef;
    SoleRouted(n, h, env, source, REF(t), id, k);
    var n' := Rekeying(n, h, id, t);
    assert Put(n', h, n'.handlers[h]) == n';
    RefTranslated(n', h, env, t, k);
  }

  // ---- REP ----

  /** Exactly one message for each address, in order, along its first connection. */
  ghost predicate SentAlong(outs: seq<Out>, m: Message, next: seq<Byte>, env: Env)
  {
    && |outs| == |next|
    && forall i | 0 <= i < |next| :: env.conns(next[i]) != [] && outs[i] == Send(m, env.conns(next[i])[0].locator)
  }

  /** A node that is not the listener starts replenishing and sends the release on to every next node
      that an acceptance recorded, in order, with the listener its entry names. */
  lemma {:induction false} ReleasePassedOn(n: Node, h: nat, env: Env, source: Byte, t: Id, listener: Byte, id: Id, k: nat)
    requires Open(n, h, id, k) && t.time == id.time && KeyFor(n, id, REP(t, listener)).Some? && !env.isMe(listener)
    requires forall i | 0 <= i < |n.cells[k].res.next| :: env.conns(n.cells[k].res.next[i]) != []
    ensures var o, r := Deliver(n, env, source, REP(t, listener)), n.cells[k].res;
            var key := KeyFor(n, id, REP(t, listener)).value;
            var n' := Rekeying(n, h, id, key);
            && o.Done? && SentAlong(o.outs, REP(key, r.listener), r.next, env)
            && o.node == Put(n'.(cells := Rewritten(n.cells, k, r.(uuid := key))), h,
                             n'.handlers[h].(state := Replenishing, source := Some(source)))
  {
    hide Routed;
    hide Resumed;
    hide L.Deref;
    var m := REP(t, listener);
    SoleRouted(n, h, env, source, m, id, k);
    var key := KeyFor(n, id, m).value;
    var n' := Rekeying(n, h, id, key);
    SoleResumed(Put(n', h, n'.handlers[h].(source := Some(source))), h, key, k);
  }

  /** The listener closes, and sends one REF towards where the release came from; its entry stays. */
  lemma {:induction false} ReleaseArrives(n: Node, h: nat, env: Env, source: Byte, t: Id, listener: Byte, id: Id, k: nat)
    requires Open(n, h, id, k) && t.time == id.time && KeyFor(n, id, REP(t, listener)).Some? && env.isMe(listener)
    requires env.conns(source) != []
    ensures var key := KeyFor(n, id, REP(t, listener)).value;
            var n' := Rekeying(n, h, id, key);
            Deliver(n, env, source, REP(t, listener))
            == Done(Put(n'.(cells := Rewritten(n.cells, k, n.cells[k].res.(uuid := key))), h,
                        n'.handlers[h].(state := Closed, source := Some(source))),
                    [Send(REF(key), env.conns(source)[0].locator)])
  {
    hide Routed;
    hide Resumed;
    var m := REP(t, listener);
    SoleRouted(n, h, env, source, m, id, k);
    var key := KeyFor(n, id, m).value;
    var n' := Rekeying(n, h, id, key);
    SoleResumed(Put(n', h, n'.handlers[h].(source := Some(source))), h, key, k);
  }

  // ---- Timeouts ----

  /** A timeout that counts erases the session's only entry, leaving all others as they were, and
      closes: the EAR, MAR and BID timeouts unless the handler is CLOSED or RESERVED, and the REP timeout
      unless it is CLOSED. Only the first three forget the bids. */
  lemma {:induction false} TimeoutReleases(n: Node, h: nat, id: Id, k: nat, timer: Timer)
    requires Sole(n, h, id, k) && n.handlers[h].state != Closed && (n.handlers[h].state == Reserved ==> timer.RepTimer?)
    requires n.cells[k].res.state != L.Created && n.cells[k].res.state != L.Cleared
    ensures var hd := n.handlers[h];
            Expire(n, h, timer)
            == Done(Put(n.(cells := n.cells[..k] + n.cells[k + 1..]), h,
                        hd.(state := Closed, tally := hd.tally.(bids := if timer.RepTimer? then hd.tally.bids else []))), [])
    ensures Without(n.cells[..k] + n.cells[k + 1..], id.time) == Without(n.cells, id.time)
    ensures Only(n.cells[..k] + n.cells[k + 1..], id.time) == []
  {
    hide SameKinds;
    var r := n.cells[k].res;
    L.PositionIs(n.cells, n.cells[k].addr, k);
    L.SameReflexive(r);
    assert L.EqualPosition(n.cells, r) == k;
    var stored := n.cells[k := n.cells[k].(res := r.(state := L.Cleared))];
    assert L.Erase(stored, k) == n.cells[..k] + n.cells[k + 1..] == L.Erase(n.cells, k);
    EraseFrame(n.cells, k, id.time);
    NothingOnly(L.Erase(n.cells, k), id.time);
  }

  lemma {:induction false} NothingOnly(cells: Cells, s: Time)
    requires NoEntry(cells, s)
    ensures Only(cells, s) == []
  {
    if cells != [] {
      NothingOnly(cells[..|cells| - 1], s);
    }
  }

  // ---- Requests that are refused ----

  /** A request for which this node has no bid, or bid 0. */
  ghost predicate Unwelcome(env: Env, m: Message)
  {
    && (m.EAR? || m.MAR?) && !m.payload.Malformed?
    && (BidFor(env, m).Some? ==> BidFor(env, m).value == 0.0)
  }

  /** The node has made a handler for the session and closed it; it is as before otherwise. */
  ghost predicate Turned(n: Node, n': Node, m: Message)
  {
    && n'.store == n.store[m.id := |n.handlers|] && n'.table == n.table && n'.origins == n.origins
    && n'.cells == n.cells && |n'.handlers| == |n.handlers| + 1 && n'.handlers[..|n.handlers|] == n.handlers
    && n'.handlers[|n.handlers|].uuid == m.id && n'.handlers[|n.handlers|].state == Closed
    && !n'.handlers[|n.handlers|].running
  }

  lemma {:induction false} MadeFor(n: Node, env: Env, source: Byte, m: Message) returns (n0: Node)
    requires Unheard(n, m.id.time) && !m.REF?
    ensures n0 == n.(store := n.store[m.id := |n.handlers|], handlers := n.handlers + [NewHandler(m.id).(source := Some(source))])
    ensures Routed(n, env, source, m) == Handed(n0, |n.handlers|) && Resumed(n0, |n.handlers|) == n0
  {
    hide Renamed;
    hide Own;
    PutLast(n, m.id, NewHandler(m.id).(source := Some(source)));
    n0 := Put(Created(n, m.id), |n.handlers|, NewHandler(m.id).(source := Some(source)));
    NotAdopted(n.cells, m.id);
  }

  /** A node without a bid for an EAR, be it the listener or on the way, leaves its ledger alone, closes,
      and answers one REF along the first shortest connection to where the request came from. */
  lemma {:induction false} RefusesRequest(n: Node, env: Env, source: Byte, m: Message)
    requires m.EAR? && Unwelcome(env, m) && Unheard(n, m.id.time) && Kept(env.conns(source)) != []
    ensures var o := Deliver(n, env, source, m);
            && o.Done? && Turned(n, o.node, m)
            && o.outs == [Send(REF(m.id), Kept(env.conns(source))[0].locator)]
  {
    hide Routed;
    hide Resumed;
    hide L.Admit;
    hide Kept;
    hide Forward;
    hide NoEntry;
    hide Own;
    var n0 := MadeFor(n, env, source, m);
    var h, r := |n.handlers|, Statement(m.id, m.priority, Requested(m.payload), m.listener);
    AdmitFirst(n.cells, n.slot, r, m.priority, env.offer);
    assert !HasBid(Put(n0, h, n0.handlers[h].(state := Assessing, ptr := L.Detached(r))), m.id);
  }

  /** A neighbour without a bid for a MAR leaves its ledger alone, closes, and answers one BID of 0 to
      the address that asked. */
  lemma {:induction false} DeclinesBid(n: Node, env: Env, source: Byte, m: Message)
    requires m.MAR? && Unwelcome(env, m) && Unheard(n, m.id.time) && env.conns(source) != []
    ensures var o := Deliver(n, env, source, m);
            o.Done? && Turned(n, o.node, m) && o.outs == [Send(BID(m.id, 0.0), source)]
  {
    hide Routed;
    hide Resumed;
    hide L.Admit;
    hide NoEntry;
    hide Own;
    var n0 := MadeFor(n, env, source, m);
    AdmitFirst(n.cells, n.slot, Statement(m.id, m.priority, Requested(m.payload), m.listener), m.priority, env.offer);
  }

  /** A request that does not pass validation is dropped, and its handler closed. */
  lemma {:induction false} DropsMalformed(n: Node, env: Env, source: Byte, m: Message)
    requires (m.EAR? || m.MAR?) && m.payload.Malformed? && Unheard(n, m.id.time)
    ensures var o := Deliver(n, env, source, m); o.Done? && Turned(n, o.node, m) && o.outs == []
  {
    hide Routed;
    hide Resumed;
    var n0 := MadeFor(n, env, source, m);
  }

  /** A relay with a bid but no connection onwards sends one REF back to the address the request came
      from, and closes; the entry it has made stays. */
  lemma {:induction false} FindsNoWay(n: Node, env: Env, source: Byte, m: Message)
    requires Welcome(env, m) && Unheard(n, m.id.time) && !env.isMe(m.listener) && env.conns(m.listener) == []
    ensures Deliver(n, env, source, m)
         == Done(With(n, m, source, Closed, EntryFor(m, BidFor(env, m).value, L.PreReserved, None), n.slot + 2),
                 [Send(REF(m.id), source)])
  {
    hide Routed;
    hide Resumed;
    hide L.Admit;
    hide L.MarkPreReserved;
    hide NoEntry;
    hide Own;
    var n0 := MadeFor(n, env, source, m);
    var h, r := |n.handlers|, Statement(m.id, m.priority, m.payload.caps, m.listener);
    AdmitFirst(n.cells, n.slot, r, m.priority, env.offer);
    var r' := r.(bid := BidFor(env, m).value);
    PreReserveFirstEntry(n.cells, n.slot, L.Detached(r'), r');
    var n1 := Put(n0, h, n0.handlers[h].(state := Assessing, ptr := L.Detached(r)));
    assert HandleEar(n0, h, env, m) == EarAtRelay(n1, h, env, m);
    var n2 := With(n, m, source, Closed, r'.(state := L.PreReserved), n.slot + 2);
    assert ClosedNode(Put(n1.(cells := n2.cells, slot := n2.slot), h, n1.handlers[h].(ptr := L.Entry(n.slot))), h) == n2;
  }

  /** A request for a session that the store knows is dropped without a trace ... */
  lemma DropsRepeated(n: Node, env: Env, source: Byte, m: Message)
    requires Known(n, m.id.time) && IsRequest(m)
    ensures Deliver(n, env, source, m) == Done(n, [])
  {
  }

  /** ... and so is one that reaches its listener again under an id that is no key. */
  lemma DropsAtListener(n: Node, env: Env, source: Byte, m: Message)
    requires Known(n, m.id.time) && m.EAR? && env.isMe(m.listener) && m.id !in n.store
    ensures Deliver(n, env, source, m) == Done(n, [])
  {
  }

  /** A bid that nobody waits for closes the handler it finds. */
  lemma {:induction false} ClosesOnStrayBid(n: Node, h: nat, env: Env, source: Byte, id: Id, value: real, k: nat)
    requires Open(n, h, id, k) && id !in n.table && n.handlers[h].state != AuctionWaiting
    ensures Deliver(n, env, source, BID(id, value))
         == Done(Put(n.(cells := Rewritten(n.cells, k, n.cells[k].res.(uuid := id))), h,
                     n.handlers[h].(state := Closed, source := Some(source))), [])
  {
    hide Routed;
    hide Resumed;
    SoleRouted(n, h, env, source, BID(id, value), id, k);
    RekeyingSame(n, h, id, k);
    SoleResumed(Put(n, h, n.handlers[h].(source := Some(source))), h, id, k);
  }

  /** A neighbour that declined is no winner while another one's bid is positive. */
  lemma {:induction false} DeclinedNeverWins(bids: seq<Bid>, decliner: Byte, other: Bid)
    requires Ascending(bids) && other in bids && other.value > 0.0
    requires forall bid <- bids :: bid.bidder == decliner ==> bid.value == 0.0
    ensures decliner !in Winners(bids)
  {
    WinnersExactly(bids);
  }
}
