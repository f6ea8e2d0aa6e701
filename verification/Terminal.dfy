/** Terminal and protected states: what no further event of a session can undo. */
module Terminal {
  import opened Basics
  import opened Identifiers
  import opened Auction
  import opened Protocol
  import opened Handlers
  import opened Processes
  import opened Sessions
  import opened Isolation
  import L = Ledger

  ghost predicate Stored(n: Node, i: nat)
  {
    exists k <- n.store :: n.store[k] == i
  }

  /** A handler the store has forgotten is closed for good. */
  ghost predicate Retired(n: Node)
  {
    forall i | 0 <= i < |n.handlers| :: Stored(n, i) || (n.handlers[i].state == Closed && !n.handlers[i].running)
  }

  // ---- Forgotten handlers are closed, in every run ----

  lemma RetiredLocally(n: Node, h: nat, n': Node)
    requires Retired(n) && h < |n.handlers| && Stored(n, h)
    requires |n'.handlers| == |n.handlers| && n'.handlers == n.handlers[h := n'.handlers[h]]
    requires n'.store == n.store
    ensures Retired(n')
  {
    assert forall i :: Stored(n', i) == Stored(n, i);
  }

  lemma AccKeepsRetired(n: Node, h: nat, env: Env)
    requires Retired(n) && Acting(n, h) && HandleAcc(n, h, env).Done?
    ensures Retired(HandleAcc(n, h, env).node)
  {
    hide HandleAcc;
    AccShape(n, h, env);
    AccKeepsKey(n, h, env);
    var n', id := HandleAcc(n, h, env).node, n.handlers[h].uuid;
    if n'.store != n.store {
      forall i | 0 <= i < |n'.handlers| ensures Stored(n', i) || (n'.handlers[i].state == Closed && !n'.handlers[i].running) {
        if Stored(n, i) && i != h {
          var k :| k in n.store && n.store[k] == i;
          assert k in n.store.Keys - {id};
          assert k in n'.store && n'.store[k] == i;
        }
      }
    } else {
      RetiredLocally(n, h, n');
    }
  }

  lemma AccKeepsKey(n0: Node, h: nat, env: Env)
    requires Acting(n0, h) && HandleAcc(n0, h, env).Done?
    ensures Stored(HandleAcc(n0, h, env).node, h)
  {
    hide L.Adopt;
    hide L.Adopted;
    hide L.Deref;
    hide L.MarkReserved;
    var n', id := HandleAcc(n0, h, env).node, n0.handlers[h].uuid;
    if id in n'.store && n'.store[id] == h {
    } else {
      assert n'.store[n0.table[id]] == h;
    }
  }

  lemma RefKeepsRetired(n: Node, h: nat, env: Env)
    requires Retired(n) && Acting(n, h) && Routable(n, h, env, REF(n.handlers[h].uuid)) && HandleRef(n, h, env).Done?
    ensures Retired(HandleRef(n, h, env).node)
  {
    hide HandleRef;
    RefShape(n, h, env);
    var n', id := HandleRef(n, h, env).node, n.handlers[h].uuid;
    forall i | 0 <= i < |n'.handlers| ensures Stored(n', i) || (n'.handlers[i].state == Closed && !n'.handlers[i].running) {
      if Stored(n, i) && i != h {
        var k :| k in n.store && n.store[k] == i;
        assert k in n'.store && n'.store[k] == i;
      }
    }
  }

  lemma HandleKeepsRetired(n: Node, h: nat, env: Env, m: Message)
    requires Retired(n) && Acting(n, h) && Routable(n, h, env, m) && Handle(n, h, env, m).Done?
    ensures Retired(Handle(n, h, env, m).node)
  {
    hide HandleEar;
    hide HandleMar;
    hide HandleBid;
    hide HandleAcc;
    hide HandleRef;
    hide HandleRep;
    hide Retired;
    var n' := Handle(n, h, env, m).node;
    assert Stored(n, h);
    match m
    case EAR(_, _, _, _) => EarIsLocal(n, h, env, m); RetiredLocally(n, h, n');
    case MAR(_, _, _, _) => MarIsLocal(n, h, env, m); RetiredLocally(n, h, n');
    case BID(_, _) => BidIsLocal(n, h, m); RetiredLocally(n, h, n');
    case ACC(_) => AccKeepsRetired(n, h, env);
    case REF(_) => RefKeepsRetired(n, h, env);
    case REP(_, _) => RepIsLocal(n, h, env, m); RetiredLocally(n, h, n');
  }

  lemma RenameKeepsRetired(n: Node, id: Id)
    requires Retired(n) && Index(n) && id != SENTINEL
    ensures Renamed(n, id).Some? && Retired(Renamed(n, id).value)
  {
    hide Index;
    StoredBelow(n);
    if exists k :: Elsewhere(n, id, k) {
      var other :| Elsewhere(n, id, other);
      RenamingKeepsIndex(n, id, other);
      var n' := Renamed(n, id).value;
      forall i | 0 <= i < |n'.handlers| ensures Stored(n', i) || (n'.handlers[i].state == Closed && !n'.handlers[i].running) {
        if Stored(n, i) {
          var k :| k in n.store && n.store[k] == i;
          var k' := if k == other then id else k;
          assert k' in n'.store && n'.store[k'] == i;
        }
      }
    }
  }

  lemma LocateKeepsRetired(n: Node, env: Env, m: Message)
    requires Retired(n) && Index(n) && m.id != SENTINEL
    ensures var place := Locate(n, env, m);
            && (place.Nowhere? ==> Retired(place.node))
            && (place.Found? ==> Retired(place.node))
  {
    hide Renamed;
    hide Keys;
    hide Retired;
    RenameKeepsRetired(n, m.id);
    RenameKeepsIndex(n, m.id);
    RenameKeepsRetired(Renamed(n, m.id).value, m.id);
    if m.id in n.table {
      TranslationFits(n, m.id);
      RenameKeepsRetired(n, n.table[m.id]);
    }
  }

  lemma RoutingKeepsRetired(n: Node, env: Env, source: Byte, m: Message)
    requires Retired(n) && Index(n) && m.id != SENTINEL
    ensures var route := Routed(n, env, source, m);
            && (route.Discarded? ==> Retired(route.node))
            && (route.Handed? ==> Retired(route.node))
  {
    hide Locate;
    hide Index;
    hide Retired;
    LocateKeepsRetired(n, env, m);
    LocateKeepsIndex(n, env, m);
    match Locate(n, env, m)
    case Nowhere(_) =>
    case Missing =>
    case Fresh =>
      CreationKeepsRetired(n, m.id, Marked(NewHandler(m.id), m, source));
    case Found(n', h) =>
      var k :| k in n'.store && n'.store[k] == h && k.time == m.id.time;
      assert Stored(n', h);
      var hd := n'.handlers[h];
      RetiredLocally(n', h, Put(n', h, hd.(tally := Arrive(hd.tally, Bid(if m.BID? then m.value else 0.0, source)))));
      RetiredLocally(n', h, Put(n', h, Marked(hd, m, source)));
  }

  lemma CreationKeepsRetired(n: Node, id: Id, hd: Handler)
    requires Retired(n) && Index(n) && !Known(n, id.time)
    ensures Retired(Put(Created(n, id), |n.handlers|, hd))
  {
    var n' := Put(Created(n, id), |n.handlers|, hd);
    forall i | 0 <= i < |n'.handlers| ensures Stored(n', i) || (n'.handlers[i].state == Closed && !n'.handlers[i].running) {
      if i == |n.handlers| {
        assert n'.store[id] == i;
      } else if Stored(n, i) {
        var k :| k in n.store && n.store[k] == i;
        assert k in n'.store && n'.store[k] == i;
      }
    }
  }

  lemma ExpireKeepsRetired(n: Node, h: nat, timer: Timer)
    requires Retired(n) && h < |n.handlers| && Expire(n, h, timer).Done?
    ensures Retired(Expire(n, h, timer).node)
  {
    hide L.Replenish;
    if Stored(n, h) {
      RetiredLocally(n, h, Expire(n, h, timer).node);
    }
  }

  lemma WakeKeepsRetired(n: Node, h: nat, env: Env, draw: nat -> Entropy)
    requires Retired(n) && h < |n.handlers| && n.handlers[h].running && Wake(n, h, env, draw).Done?
    ensures Retired(Wake(n, h, env, draw).node)
  {
    hide Wake;
    var k := WakeShape(n, h, env, draw);
    RetiredLocally(n, h, Wake(n, h, env, draw).node);
  }

  lemma StepKeepsRetired(n: Node, env: Env, e: Event)
    requires Retired(n) && Index(n) && Sound(n, env, e) && Step(n, env, e).Done?
    ensures Retired(Step(n, env, e).node)
  {
    hide Expire;
    hide Wake;
    hide Handle;
    hide Routed;
    hide Routable;
    hide Index;
    match e
    case Arrival(source, m) =>
      hide Retired;
      RoutingKeepsIndex(n, env, source, m);
      RoutingKeepsRetired(n, env, source, m);
      var route := Routed(n, env, source, m);
      if route.Handed? {
        HandleKeepsRetired(route.node, route.h, env, m);
      }
    case Timeout(h, timer) =>
      hide Retired;
      if h < |n.handlers| {
        ExpireKeepsRetired(n, h, timer);
      }
    case Awakening(h, draw) =>
      hide Retired;
      if h < |n.handlers| && n.handlers[h].running {
        WakeKeepsRetired(n, h, env, draw);
      }
    case OriginMark(_) =>
      assert forall i :: Stored(Step(n, env, e).node, i) == Stored(n, i);
  }

  ghost predicate Invariant(n: Node)
  {
    Index(n) && Owned(n) && Retired(n)
  }

  lemma StepKeepsInvariant(n: Node, env: Env, e: Event)
    requires Invariant(n) && Sound(n, env, e) && Step(n, env, e).Done?
    ensures Invariant(Step(n, env, e).node)
  {
    hide Step;
    hide Index;
    hide Owned;
    hide Retired;
    hide Sound;
    StepKeepsIndex(n, env, e);
    StepKeepsRetired(n, env, e);
    var s := SomeSession(n, e);
    StepIsConfined(n, env, e, s);
    OwnedAfter(n, Step(n, env, e).node, s);
  }

  // ---- The one handler of a session ----

  ghost predicate Serves(n: Node, s: Time, h: nat)
  {
    h < |n.handlers| && exists k <- n.store :: k.time == s && n.store[k] == h
  }

  /** The same handler as before but for its id. */
  ghost predicate SameBut(n: Node, n': Node, s: Time, h: nat)
    requires h < |n.handlers|
  {
    && Serves(n', s, h) && n'.cells == n.cells
    && n'.handlers[h] == n.handlers[h].(uuid := n'.handlers[h].uuid)
  }

  lemma RenameFinds(n: Node, id: Id, h: nat)
    requires Index(n) && id != SENTINEL && Serves(n, id.time, h)
    ensures Renamed(n, id).Some? && SameBut(n, Renamed(n, id).value, id.time, h)
  {
    StoredBelow(n);
    if exists k :: Elsewhere(n, id, k) {
      var other :| Elsewhere(n, id, other);
      RenamingKeepsIndex(n, id, other);
      var n' := Renamed(n, id).value;
      assert n.store[other] == h;
      assert id in n'.store && n'.store[id] == h;
    }
  }

  lemma ServesUnique(n: Node, id: Id, h: nat)
    requires Index(n) && Serves(n, id.time, h) && id in n.store
    ensures n.store[id] == h
  {
  }

  /** While a session has a stored handler, a message is lost, dropped, or finds just that handler. */
  lemma LocateFinds(n: Node, env: Env, m: Message, h: nat)
    requires Index(n) && m.id != SENTINEL && Serves(n, m.id.time, h)
    ensures var place := Locate(n, env, m);
            && !place.Fresh?
            && (place.Nowhere? ==> SameBut(n, place.node, m.id.time, h))
            && (place.Found? ==> SameBut(n, place.node, m.id.time, h) && place.h == h && !IsRequest(m))
  {
    hide Renamed;
    hide Keys;
    var s := m.id.time;
    assert Known(n, s);
    RenameFinds(n, m.id, h);
    RenameKeepsIndex(n, m.id);
    var n' := Renamed(n, m.id).value;
    RenameFinds(n', m.id, h);
    RenameKeepsIndex(n', m.id);
    var n'' := Renamed(n', m.id).value;
    if m.id in n''.store {
      ServesUnique(n'', m.id, h);
    }
    if m.id in n'.store {
      ServesUnique(n', m.id, h);
    }
    if m.id in n.store {
      ServesUnique(n, m.id, h);
    }
    if m.id in n.table {
      var id := n.table[m.id];
      TranslationFits(n, m.id);
      RenameFinds(n, id, h);
      RenameKeepsIndex(n, id);
      if id in n.store {
        ServesUnique(Renamed(n, id).value, id, h);
      }
    }
  }

  // ---- Closed is final ----

  /** Closed; and if a blocked thread is still to wake from an auction, it will find no bids. */
  ghost predicate Quiet(hd: Handler)
  {
    hd.state == Closed && (hd.running ==> hd.tally.bids == [])
  }

  lemma QuietArrival(n: Node, env: Env, source: Byte, m: Message, h: nat)
    requires Index(n) && m.id != SENTINEL && Serves(n, m.id.time, h) && Quiet(n.handlers[h])
    requires Deliver(n, env, source, m).Done?
    ensures SameBut(n, Deliver(n, env, source, m).node, m.id.time, h)
    ensures Deliver(n, env, source, m).outs == []
  {
    hide Locate;
    hide Index;
    hide Handle;
    LocateFinds(n, env, m, h);
  }

  lemma QuietAwakening(n: Node, env: Env, draw: nat -> Entropy, s: Time, h: nat)
    requires Serves(n, s, h) && Quiet(n.handlers[h]) && n.handlers[h].running && Wake(n, h, env, draw).Done?
    ensures var o := Wake(n, h, env, draw);
            && Serves(o.node, s, h) && Quiet(o.node.handlers[h]) && o.node.cells == n.cells
            && !o.node.handlers[h].running && exists a :: o.outs == [Send(REF(n.handlers[h].uuid), a)]
  {
    var o := Wake(n, h, env, draw);
    assert o.outs == [Send(REF(n.handlers[h].uuid), n.handlers[h].source.value)];
  }

  /** What an event of the session may do once its handler is quiet: nothing to the ledger, and no
      sending but the refusal of an auction that wakes without bids. */
  lemma QuietStep(n: Node, env: Env, e: Event, s: Time, h: nat)
    requires Invariant(n) && Sound(n, env, e) && Concerns(n, e, s)
    requires Serves(n, s, h) && Quiet(n.handlers[h]) && Step(n, env, e).Done?
    ensures var o := Step(n, env, e);
            && Serves(o.node, s, h) && Quiet(o.node.handlers[h]) && o.node.cells == n.cells
            && (o.node.handlers[h].running ==> n.handlers[h].running)
            && (o.outs == [] || (n.handlers[h].running && !o.node.handlers[h].running
                                 && exists a :: o.outs == [Send(REF(n.handlers[h].uuid), a)]))
  {
    hide Deliver;
    hide L.Replenish;
    hide Wake;
    hide Index;
    hide Retired;
    hide Owned;
    match e
    case Arrival(source, m) => QuietArrival(n, env, source, m, h);
    case Timeout(i, timer) =>
      if i < |n.handlers| {
        OneHandler(n, s, h, i);
      }
    case Awakening(i, draw) =>
      if i < |n.handlers| && n.handlers[i].running {
        OneHandler(n, s, h, i);
        QuietAwakening(n, env, draw, s, h);
      }
    case OriginMark(_) =>
  }

  /** Any other handler of the session is a forgotten one. */
  lemma OneHandler(n: Node, s: Time, h: nat, i: nat)
    requires Index(n) && Retired(n) && Serves(n, s, h) && i < |n.handlers| && n.handlers[i].uuid.time == s
    ensures i == h || (n.handlers[i].state == Closed && !n.handlers[i].running)
  {
    if Stored(n, i) {
      var k :| k in n.store && n.store[k] == i;
      StoredPlaced(n, k);
    }
  }

  lemma SameForServes(n: Node, n': Node, s: Time, h: nat)
    requires SameFor(n, n', s) && Serves(n, s, h) && n.handlers[h].uuid.time == s
    ensures Serves(n', s, h) && n'.handlers[h] == n.handlers[h]
  {
    hide Only;
    var k :| k in n.store && k.time == s && n.store[k] == h;
    assert k in n'.store && n'.store[k] == h;
  }

  lemma ServesPlaced(n: Node, s: Time, h: nat)
    requires Index(n) && Serves(n, s, h)
    ensures n.handlers[h].uuid.time == s
  {
  }

  /** The run goes on from n by one more event. */
  lemma RunOn(n: Node, trace: seq<(Env, Event)>)
    requires trace != [] && SoundRun(n, trace) && Run(n, trace).Some?
    ensures var front, last := trace[..|trace| - 1], trace[|trace| - 1];
            && SoundRun(n, front) && Run(n, front).Some? && Sound(Run(n, front).value, last.0, last.1)
            && var o := Step(Run(n, front).value, last.0, last.1); o.Done? && o.node == Run(n, trace).value
  {
    hide Step;
    hide Sound;
    var front := trace[..|trace| - 1];
    assert forall i | 0 <= i < |front| :: front[..i] == trace[..i];
  }

  lemma {:induction false} InvariantOn(n: Node, trace: seq<(Env, Event)>)
    requires Invariant(n) && SoundRun(n, trace) && Run(n, trace).Some?
    ensures Invariant(Run(n, trace).value)
  {
    hide Step;
    hide Sound;
    hide Invariant;
    if trace != [] {
      var front, last := trace[..|trace| - 1], trace[|trace| - 1];
      RunOn(n, trace);
      InvariantOn(n, front);
      StepKeepsInvariant(Run(n, front).value, last.0, last.1);
    }
  }

  lemma InitialInvariant()
    ensures Invariant(INITIAL_NODE)
  {
  }

  /** Every event, of whatever session, leaves a quiet session s quiet and its ledger entries in place,
      and makes it send at most that refusal. */
  lemma {:induction false} QuietUnderAll(n: Node, env: Env, e: Event, s: Time, h: nat)
    requires Invariant(n) && Sound(n, env, e) && Step(n, env, e).Done?
    requires Serves(n, s, h) && Quiet(n.handlers[h])
    ensures var o := Step(n, env, e);
            && Serves(o.node, s, h) && Quiet(o.node.handlers[h]) && Only(o.node.cells, s) == Only(n.cells, s)
            && (o.node.handlers[h].running ==> n.handlers[h].running)
            && (forall i | 0 <= i < |o.outs| && SessionOf(o.outs[i]) == s ::
                  o.outs[i].Send? && o.outs[i].msg.REF? && n.handlers[h].running && !o.node.handlers[h].running)
  {
    hide Step;
    hide Sound;
    hide Index;
    hide Owned;
    hide Retired;
    hide Only;
    var o, t := Step(n, env, e), SomeSession(n, e);
    StepIsConfined(n, env, e, t);
    ServesPlaced(n, s, h);
    if Concerns(n, e, s) {
      QuietStep(n, env, e, s, h);
    } else {
      ConfinedSameFor(n, o.node, t, s);
      SameForServes(n, o.node, s, h);
    }
  }

  /** Once the handler of a session is closed (and not blocked on bids), the session is over at this
      node: whatever messages, timeouts and awakenings of any session follow, in any order, the
      handler stays closed, the session's ledger entries stay as they are, and nothing of the session
      is ever sent or reported again. */
  lemma {:induction false} ClosedForGood(n: Node, trace: seq<(Env, Event)>, s: Time, h: nat)
    requires Invariant(n) && SoundRun(n, trace) && Run(n, trace).Some?
    requires Serves(n, s, h) && n.handlers[h].state == Closed && !n.handlers[h].running
    ensures var n' := Run(n, trace).value;
            && Serves(n', s, h) && n'.handlers[h].state == Closed && !n'.handlers[h].running
            && Only(n'.cells, s) == Only(n.cells, s)
    ensures trace != [] ==>
              var front, last := trace[..|trace| - 1], trace[|trace| - 1];
              && Run(n, front).Some? && Step(Run(n, front).value, last.0, last.1).Done?
              && forall out <- Step(Run(n, front).value, last.0, last.1).outs :: SessionOf(out) != s
  {
    hide Step;
    hide Sound;
    hide Invariant;
    hide Only;
    if trace != [] {
      var front, last := trace[..|trace| - 1], trace[|trace| - 1];
      RunOn(n, trace);
      ClosedForGood(n, front, s, h);
      InvariantOn(n, front);
      QuietUnderAll(Run(n, front).value, last.0, last.1, s, h);
    }
  }

  /** A waiting auction closed by its EAR, MAR or BID timeout wakes without bids, refuses once, and is
      closed for good. */
  lemma AuctionTimesOut(n: Node, h: nat, timer: Timer, env: Env, draw: nat -> Entropy)
    requires h < |n.handlers| && n.handlers[h].state == AuctionWaiting && n.handlers[h].running
    requires !timer.RepTimer? && Expire(n, h, timer).Done?
    ensures var n' := Expire(n, h, timer).node;
            && Quiet(n'.handlers[h])
            && (Wake(n', h, env, draw).Done? <==> n.handlers[h].source.Some?)
            && (Wake(n', h, env, draw).Done? ==>
                  && Wake(n', h, env, draw).node == Put(n', h, n'.handlers[h].(running := false))
                  && Wake(n', h, env, draw).outs == [Send(REF(n.handlers[h].uuid), n.handlers[h].source.value)])
  {
    hide L.Replenish;
  }

  // ---- Reserved is protected ----

  /** The cells with their ids blanked out. */
  function Blank(cells: Cells): (out: Cells)
    ensures |out| == |cells|
    ensures forall i | 0 <= i < |cells| :: out[i] == cells[i].(res := cells[i].res.(uuid := SENTINEL))
  {
    seq(|cells|, i requires 0 <= i < |cells| => cells[i].(res := cells[i].res.(uuid := SENTINEL)))
  }

  lemma {:induction false} BlankOnly(cells: Cells, cells': Cells, s: Time)
    requires |cells'| == |cells| && Blank(cells') == Blank(cells)
    requires forall i | 0 <= i < |cells| :: TimeOf(cells'[i]) == TimeOf(cells[i])
    ensures Blank(Only(cells', s)) == Blank(Only(cells, s))
  {
    if cells != [] {
      var k := |cells| - 1;
      assert Blank(cells'[..k]) == Blank(cells')[..k] && Blank(cells[..k]) == Blank(cells)[..k];
      BlankOnly(cells[..k], cells'[..k], s);
      assert Blank(cells')[k] == Blank(cells)[k];
    }
  }

  lemma {:induction false} AdoptBlank(cells: Cells, id: Id, s: Time)
    ensures Blank(Only(L.Adopt(cells, id), s)) == Blank(Only(cells, s))
  {
    hide Only;
    BlankOnly(cells, L.Adopt(cells, id), s);
  }

  /** Requests, acceptances and timeouts other than REP's. */
  ghost predicate Mild(e: Event)
  {
    && (e.Arrival? ==> e.msg.ACC? || IsRequest(e.msg))
    && (e.Timeout? ==> !e.timer.RepTimer?)
  }

  ghost predicate Holds(n: Node, s: Time, h: nat)
  {
    Serves(n, s, h) && n.handlers[h].state == Reserved && !n.handlers[h].running
  }

  lemma ReservedArrival(n: Node, env: Env, source: Byte, m: Message, h: nat)
    requires Index(n) && m.id != SENTINEL && Holds(n, m.id.time, h)
    requires m.ACC? || IsRequest(m)
    requires Deliver(n, env, source, m).Done?
    ensures var o := Deliver(n, env, source, m);
            && Holds(o.node, m.id.time, h) && o.outs == []
            && (o.node.cells == n.cells || exists id: Id :: o.node.cells == L.Adopt(n.cells, id))
  {
    hide Locate;
    hide Index;
    hide L.Adopt;
    hide L.Adopted;
    hide L.MarkReserved;
    hide PassAccept;
    LocateFinds(n, env, m, h);
    var route := Routed(n, env, source, m);
    if route.Handed? {
      assert Deliver(n, env, source, m).node == Resumed(route.node, h);
      assert Serves(route.node, m.id.time, h);
    }
  }

  lemma {:induction false} ReservedStep(n: Node, env: Env, e: Event, s: Time, h: nat)
    requires Invariant(n) && Sound(n, env, e) && Concerns(n, e, s) && Mild(e)
    requires Holds(n, s, h) && Step(n, env, e).Done?
    ensures var o := Step(n, env, e);
            Holds(o.node, s, h) && o.outs == [] && Blank(Only(o.node.cells, s)) == Blank(Only(n.cells, s))
  {
    hide Deliver;
    hide L.Replenish;
    hide L.Adopt;
    hide Wake;
    hide Index;
    hide Retired;
    hide Owned;
    hide Blank;
    hide Only;
    match e
    case Arrival(source, m) =>
      ReservedArrival(n, env, source, m, h);
      var cells := Step(n, env, e).node.cells;
      if cells != n.cells {
        var id: Id :| cells == L.Adopt(n.cells, id);
        AdoptBlank(n.cells, id, s);
      }
    case Timeout(i, timer) =>
      if i < |n.handlers| {
        OneHandler(n, s, h, i);
      }
    case Awakening(i, draw) =>
      if i < |n.handlers| {
        OneHandler(n, s, h, i);
      }
    case OriginMark(_) =>
  }

  ghost predicate MildRun(n: Node, trace: seq<(Env, Event)>, s: Time)
  {
    forall i | 0 <= i < |trace| ::
      var before := Run(n, trace[..i]);
      before.Some? && Concerns(before.value, trace[i].1, s) ==> Mild(trace[i].1)
  }

  /** A reserved handler survives every EAR, MAR and BID timeout, every repeated request and every
      repeated ACC of its session, among any events of other sessions: it stays reserved, its entries
      keep everything but the random part of their ids, and the session sends nothing. */
  lemma {:induction false} ReservedHolds(n: Node, trace: seq<(Env, Event)>, s: Time, h: nat)
    requires Invariant(n) && SoundRun(n, trace) && Run(n, trace).Some? && MildRun(n, trace, s)
    requires Holds(n, s, h)
    ensures Holds(Run(n, trace).value, s, h)
    ensures Blank(Only(Run(n, trace).value.cells, s)) == Blank(Only(n.cells, s))
    ensures trace != [] ==>
              var front, last := trace[..|trace| - 1], trace[|trace| - 1];
              && Run(n, front).Some? && Step(Run(n, front).value, last.0, last.1).Done?
              && forall out <- Step(Run(n, front).value, last.0, last.1).outs :: SessionOf(out) != s
  {
    hide Step;
    hide Sound;
    hide Invariant;
    hide Only;
    hide Concerns;
    if trace != [] {
      var front, last := trace[..|trace| - 1], trace[|trace| - 1];
      RunOn(n, trace);
      assert MildRun(n, front, s) by {
        assert forall i | 0 <= i < |front| :: front[..i] == trace[..i] && front[i] == trace[i];
      }
      ReservedHolds(n, front, s, h);
      InvariantOn(n, front);
      ReservedUnderAll(Run(n, front).value, last.0, last.1, s, h);
    }
  }

  lemma {:induction false} ReservedUnderAll(n: Node, env: Env, e: Event, s: Time, h: nat)
    requires Invariant(n) && Sound(n, env, e) && Step(n, env, e).Done? && (Concerns(n, e, s) ==> Mild(e))
    requires Holds(n, s, h)
    ensures var o := Step(n, env, e);
            && Holds(o.node, s, h) && Blank(Only(o.node.cells, s)) == Blank(Only(n.cells, s))
            && forall out <- o.outs :: SessionOf(out) != s
  {
    hide Step;
    hide Sound;
    hide Index;
    hide Owned;
    hide Retired;
    hide Only;
    var o, t := Step(n, env, e), SomeSession(n, e);
    StepIsConfined(n, env, e, t);
    ServesPlaced(n, s, h);
    if Concerns(n, e, s) {
      ReservedStep(n, env, e, s, h);
    } else {
      ConfinedSameFor(n, o.node, t, s);
      SameForServes(n, o.node, s, h);
    }
  }
}
