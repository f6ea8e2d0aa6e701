/** Messages, handlers and the state of one node. */
module Protocol {
  import opened Basics
  import opened Identifiers
  import opened Capabilities
  import opened Routes
  import opened Auction
  import L = Ledger

  /** What the payload of a request stands for: no bytes, bytes that do not pass validation, or a list
      of requirements. */
  datatype Payload = Empty | Malformed | Carries(caps: Caps)

  datatype Message =
    | EAR(id: Id, priority: Byte, listener: Byte, payload: Payload)
    | MAR(id: Id, priority: Byte, listener: Byte, payload: Payload)
    | BID(id: Id, value: real)
    | ACC(id: Id)
    | REF(id: Id)
    | REP(id: Id, listener: Byte)

  datatype HandlerState =
    | Ready | Presenting | AuctionBidding | AuctionWaiting | Assessing
    | PreReserved | Reserved | Replenishing | Closed

  type Pointer = L.Pointer<nat>

  /** One session's handler. `running` says that its thread is blocked waiting for bids. */
  datatype Handler = Handler(
    uuid: Id, state: HandlerState, tally: Tally, ptr: Pointer, source: Option<Byte>, running: bool)

  /** Handlers are numbered in the order of creation; `slot` is the next unused ledger address. */
  datatype Node = Node(
    store: map<Id, nat>, handlers: seq<Handler>, cells: seq<L.Cell<nat>>, slot: nat,
    table: map<Id, Id>, origins: set<Id>)

  const INITIAL_NODE := Node(map[], [], [], 0, map[], {})

  /** The surroundings of a node during one step. */
  datatype Env = Env(isMe: Byte -> bool, conns: Byte -> seq<Conn>, topology: seq<Byte>, offer: L.Offer)

  datatype Out = Send(msg: Message, locator: Byte) | Report(ok: bool, id: Id)

  /** A step ends with the node parked and its output, or the process dies of a failed assertion, an
      uncaught exception or a bad pointer. */
  datatype Outcome = Crash | Done(node: Node, outs: seq<Out>)

  /** Position i is the first one that holds the address. */
  predicate LeadsTo(topology: seq<Byte>, i: nat, a: Byte)
  {
    i < |topology| && topology[i] == a && a !in topology[..i]
  }

  /** The port of an address: its first position in the topology, kept in one byte. */
  function Port(topology: seq<Byte>, a: Byte): (p: Option<Byte>)
    ensures p.Some? <==> a in topology
    ensures p.Some? ==> exists i: nat :: LeadsTo(topology, i, a) && p.value == i % 256
    ensures p.Some? && |topology| <= 256 ==> LeadsTo(topology, p.value, a)
  {
    if a in topology then
      var i := FirstOf(topology, a);
      assert LeadsTo(topology, i, a);
      Some(i % 256)
    else None
  }

  function FirstOf(topology: seq<Byte>, a: Byte): (i: nat)
    requires a in topology
    ensures i < |topology| && topology[i] == a && a !in topology[..i]
  {
    if topology[0] == a then 0 else 1 + FirstOf(topology[1..], a)
  }

  function Put(n: Node, h: nat, hd: Handler): Node
    requires h < |n.handlers|
  {
    n.(handlers := n.handlers[h := hd])
  }

  /** What a reservation is forwarded with: only requirements at consecutive places from 0 pass the
      order check of the next hop. */
  function Forwarded(caps: Caps): Payload
  {
    if Consecutive(caps) then Carries(caps) else Malformed
  }

  predicate Consecutive(caps: Caps)
  {
    forall k <- caps.items :: caps.items[k].kind == CompCpu && caps.items[k].value.Some? && forall j: Byte | j < k :: j in caps.items
  }
}

/** Handler: what one handler does with each message, each timeout and when an auction wakes. Every
    function follows the code from the point where the message is taken up to the point where the
    thread stops. */
module Handlers {
  import opened Basics
  import opened Identifiers
  import opened Capabilities
  import opened Routes
  import opened Auction
  import opened Protocol
  import L = Ledger

  /** Every message first looks up the session's reservation. */
  function Resumed(n: Node, h: nat): Node
    requires h < |n.handlers|
  {
    var hd := n.handlers[h];
    n.(cells := L.Adopt(n.cells, hd.uuid),
       handlers := n.handlers[h := hd.(ptr := L.Adopted(n.cells, hd.uuid))])
  }

  function Statement(id: Id, priority: Byte, caps: Caps, listener: Byte): L.Reservation
  {
    L.Reservation(id, L.Created, priority, caps, listener, -1.0, None, [])
  }

  function Requested(payload: Payload): Caps
  {
    if payload.Carries? then payload.caps else NO_CAPS
  }

  /** The first of the shortest connections to the source, if there is one. */
  function WayBack(hd: Handler, env: Env): Option<Byte>
  {
    if hd.source.Some? && Kept(env.conns(hd.source.value)) != []
    then Some(Kept(env.conns(hd.source.value))[0].locator)
    else None
  }

  /** The first raw connection to an address, if there is one. */
  function Direct(a: Byte, env: Env): Option<Byte>
  {
    if env.conns(a) != [] then Some(env.conns(a)[0].locator) else None
  }

  /** available_for_performance on the handler's own statement. */
  function Admitted(n: Node, h: nat, priority: Byte, env: Env): L.Admission<nat>
    requires h < |n.handlers|
  {
    L.Admit(n.cells, n.handlers[h].ptr, priority, env.offer, n.slot)
  }

  function Refuse(n: Node, h: nat, env: Env): Outcome
    requires h < |n.handlers|
  {
    var hd := n.handlers[h];
    match WayBack(hd, env)
    case None => Crash
    case Some(locator) => Done(Put(n, h, hd.(state := Closed)), [Send(REF(hd.uuid), locator)])
  }

  // ---- EAR ----

  function HandleEar(n0: Node, h: nat, env: Env, m: Message): Outcome
    requires h < |n0.handlers| && m.EAR?
  {
    var n := Resumed(n0, h);
    var hd := n.handlers[h];
    if hd.state != PreReserved && m.payload.Malformed? then Done(Put(n, h, hd.(state := Closed)), [])
    else
      var hd' := if hd.state == PreReserved then hd
                 else hd.(state := Assessing,
                          ptr := L.Detached(Statement(hd.uuid, m.priority, Requested(m.payload), m.listener)));
      var n' := Put(n, h, hd');
      if env.isMe(m.listener) then EarAtListener(n', h, env, m.priority)
      else if HasBid(n', m.id)
      then Forward(Put(n', h, hd'.(ptr := L.LastOf(n'.cells, hd'.uuid, hd'.ptr))), h, env, m.listener)
      else EarAtRelay(n', h, env, m)
  }

  /** is_bid_in_store */
  predicate HasBid(n: Node, id: Id)
  {
    id in n.store && n.store[id] < |n.handlers| && n.handlers[n.store[id]].state == PreReserved
  }

  function EarAtListener(n: Node, h: nat, env: Env, priority: Byte): Outcome
    requires h < |n.handlers|
  {
    match Admitted(n, h, priority, env)
    case Fault => Crash
    case Refused(cells, ptr) => Refuse(Put(n.(cells := cells), h, n.handlers[h].(ptr := ptr)), h, env)
    case Accepted(cells, _) => Accept(n.(cells := cells, slot := n.slot + 1), h, env, n.slot)
  }

  /** The listener reserves what was just pushed and answers with an ACC. */
  function Accept(n: Node, h: nat, env: Env, position: nat): Outcome
    requires h < |n.handlers|
  {
    var hd := n.handlers[h];
    match (L.MarkReserved(n.cells, L.Entry(position)), WayBack(hd, env))
    case (Some(marked), Some(locator)) =>
      Done(Put(n.(cells := marked.cells), h, hd.(ptr := L.Entry(position), state := Reserved)),
           [Send(ACC(hd.uuid), locator)])
    case _ => Crash
  }

  function EarAtRelay(n: Node, h: nat, env: Env, m: Message): Outcome
    requires h < |n.handlers| && m.EAR?
  {
    match Admitted(n, h, m.priority, env)
    case Fault => Crash
    case Refused(cells, _) => Refuse(Put(n.(cells := cells), h, n.handlers[h].(ptr := L.Null)), h, env)
    case Accepted(cells, ptr) =>
      match L.MarkPreReserved(cells, ptr, n.slot + 1)
      case None => Crash
      case Some(marked) =>
        Forward(Put(n.(cells := marked.cells, slot := n.slot + 2), h, n.handlers[h].(ptr := marked.ptr)), h, env, m.listener)
  }

  /** Towards the listener: a refusal without a connection, an EAR along the only one, or an auction
      with a MAR for each. */
  function Forward(n: Node, h: nat, env: Env, listener: Byte): Outcome
    requires h < |n.handlers|
  {
    var hd, conns := n.handlers[h], Kept(env.conns(listener));
    match hd.source
    case None => Crash
    case Some(source) =>
      if conns == [] then Done(Put(n, h, hd.(state := Closed)), [Send(REF(hd.uuid), source)])
      else
        match L.Deref(n.cells, hd.ptr)
        case None => Crash
        case Some(r) =>
          var n' := n.(cells := L.Store(n.cells, hd.ptr, r.(past := Some(source))));
          var ptr := L.Repoint(hd.ptr, r.(past := Some(source)));
          if |conns| == 1
          then Done(Put(n', h, hd.(state := PreReserved, ptr := ptr)),
                    [Send(EAR(hd.uuid, r.priority, r.listener, Forwarded(r.caps)), conns[0].locator)])
          else Done(Put(n', h, hd.(state := AuctionWaiting, ptr := ptr,
                                   tally := hd.tally.(waiting := |conns| % 256, arriving := 0))),
                    SendEach(MAR(hd.uuid, r.priority, r.listener, Forwarded(r.caps)), conns))
  }

  function SendEach(m: Message, conns: seq<Conn>): (outs: seq<Out>)
    ensures |outs| == |conns|
    ensures forall i | 0 <= i < |conns| :: outs[i] == Send(m, conns[i].locator)
  {
    if conns == [] then [] else SendEach(m, conns[..|conns| - 1]) + [Send(m, conns[|conns| - 1].locator)]
  }

  // ---- MAR ----

  function HandleMar(n0: Node, h: nat, env: Env, m: Message): Outcome
    requires h < |n0.handlers| && m.MAR?
  {
    var n := Resumed(n0, h);
    var hd := n.handlers[h];
    if m.payload.Malformed? then Done(Put(n, h, hd.(state := Closed)), []) else AnswerMar(n, h, env, m)
  }

  /** A bid towards the source: nothing when refused, else the bid of the reservation just pushed. */
  function AnswerMar(n: Node, h: nat, env: Env, m: Message): Outcome
    requires h < |n.handlers| && m.MAR?
  {
    var hd := n.handlers[h];
    var ptr := L.Detached(Statement(hd.uuid, m.priority, Requested(m.payload), m.listener));
    if hd.source.None? || Direct(hd.source.value, env).None? then Crash
    else
      var locator := Direct(hd.source.value, env).value;
      match L.Admit(n.cells, ptr, m.priority, env.offer, n.slot)
      case Fault => Crash
      case Refused(cells, ptr') =>
        Done(Put(n.(cells := cells), h, hd.(ptr := ptr', state := Closed)),
             [Send(BID(hd.uuid, 0.0), hd.source.value)])
      case Accepted(cells, _) =>
        match L.MarkPreReserved(cells, L.Entry(n.slot), n.slot + 1)
        case None => Crash
        case Some(marked) =>
          Done(Put(n.(cells := marked.cells, slot := n.slot + 2), h, hd.(ptr := marked.ptr, state := PreReserved)),
               [Send(BID(hd.uuid, cells[|cells| - 1].res.bid), locator)])
  }

  // ---- BID, and the end of an auction ----

  function HandleBid(n0: Node, h: nat, m: Message): Outcome
    requires h < |n0.handlers| && m.BID?
  {
    var n := Resumed(n0, h);
    var hd := n.handlers[h];
    if hd.state != AuctionWaiting then Done(Put(n, h, hd.(state := Closed)), [])
    else if hd.source.None? then Crash
    else Done(Put(n, h, hd.(tally := Arrive(hd.tally, Bid(m.value, hd.source.value)), running := true)), [])
  }

  /** The blocked thread goes on: all bids arrived, or the auction timed out. `draw` gives the random
      part of each new id. */
  function Wake(n: Node, h: nat, env: Env, draw: nat -> Entropy): Outcome
    requires h < |n.handlers|
  {
    var hd := n.handlers[h].(running := false);
    if hd.tally.bids == [] then
      if hd.source.None? then Crash
      else Done(Put(n, h, hd.(state := Closed)), [Send(REF(hd.uuid), hd.source.value)])
    else
      match L.Deref(n.cells, hd.ptr)
      case None => Crash
      case Some(r) =>
        var winners := Winners(hd.tally.bids);
        if |winners| == 1 then
          match Direct(winners[0], env)
          case None => Crash
          case Some(locator) =>
            Done(Put(n, h, hd.(state := PreReserved)),
                 [Send(EAR(hd.uuid, r.priority, r.listener, Empty), locator)])
        else if exists w <- winners :: Direct(w, env).None? then Crash
        else
          var entropies := Drawn(draw, |winners|);
          Done(Put(n.(table := Translations(n.table, hd.uuid, entropies)), h, hd.(state := PreReserved)),
               SendTranslated(hd.uuid, r, winners, entropies, env))
  }

  function Drawn(draw: nat -> Entropy, k: nat): (entropies: seq<Entropy>)
    ensures |entropies| == k
    ensures forall i | 0 <= i < k :: entropies[i] == draw(i)
  {
    if k == 0 then [] else Drawn(draw, k - 1) + [draw(k - 1)]
  }

  /** create_translation for each winner: an id already in the table keeps its translation. */
  function Translations(table: map<Id, Id>, original: Id, entropies: seq<Entropy>): map<Id, Id>
  {
    if entropies == [] then table
    else
      var before := Translations(table, original, entropies[..|entropies| - 1]);
      var id := Id(original.time, entropies[|entropies| - 1]);
      if id in before then before else before[id := original]
  }

  function SendTranslated(original: Id, r: L.Reservation, winners: seq<Byte>, entropies: seq<Entropy>, env: Env): (outs: seq<Out>)
    requires |winners| == |entropies|
    requires forall w <- winners :: Direct(w, env).Some?
    ensures |outs| == |winners|
    ensures forall i | 0 <= i < |winners| ::
              outs[i] == Send(EAR(Id(original.time, entropies[i]), r.priority, r.listener, Empty), Direct(winners[i], env).value)
  {
    if winners == [] then []
    else
      var k := |winners| - 1;
      SendTranslated(original, r, winners[..k], entropies[..k], env)
      + [Send(EAR(Id(original.time, entropies[k]), r.priority, r.listener, Empty), Direct(winners[k], env).value)]
  }

  // ---- ACC ----

  function HandleAcc(n0: Node, h: nat, env: Env): Outcome
    requires h < |n0.handlers|
  {
    var n := Resumed(n0, h);
    var hd := n.handlers[h];
    if hd.state == Reserved then Done(n, [])
    else
      match L.MarkReserved(n.cells, hd.ptr)
      case None => Crash
      case Some(marked) =>
        var n' := n.(cells := marked.cells);
        if hd.uuid in n.table then
          match Rekeyed(n', h, n.table[hd.uuid])
          case None => Crash
          case Some(n'') => PassAccept(n'', h, env)
        else if hd.uuid in n.origins then
          Done(Linked(n', h), [Report(true, hd.uuid)])
        else PassAccept(n', h, env)
  }

  /** The handler's entry moves to the original id; an occupied key keeps its own handler. */
  function Rekeyed(n: Node, h: nat, original: Id): Option<Node>
    requires h < |n.handlers|
  {
    var id := n.handlers[h].uuid;
    if id !in n.store then None
    else
      var rest := n.store - {id};
      Some(Put(n.(store := if original in rest then rest else rest[original := n.store[id]]),
               h, n.handlers[h].(uuid := original)))
  }

  /** RESERVED, with the accepting node as a next node of the reservation. */
  function Linked(n: Node, h: nat): Node
    requires h < |n.handlers|
  {
    var hd := n.handlers[h];
    var n' := Put(n, h, hd.(state := Reserved));
    match L.Deref(n.cells, hd.ptr)
    case None => n'
    case Some(r) =>
      if hd.source.Some? then n'.(cells := L.Store(n.cells, hd.ptr, r.(next := r.next + [hd.source.value]))) else n'
  }

  /** On to the past node; if that is no port of this node, the thread just stops. */
  function PassAccept(n: Node, h: nat, env: Env): Outcome
    requires h < |n.handlers|
  {
    var hd := n.handlers[h];
    match L.Deref(n.cells, hd.ptr)
    case None => Crash
    case Some(r) =>
      if r.past.None? then Crash
      else
        match Port(env.topology, r.past.value)
        case None => Done(n, [])
        case Some(port) => Done(Linked(n, h), [Send(ACC(hd.uuid), port)])
  }

  // ---- REF ----

  function HandleRef(n0: Node, h: nat, env: Env): Outcome
    requires h < |n0.handlers|
  {
    var n1 := Resumed(n0, h);
    match Erased(n1, n1.handlers[h].uuid)
    case None => Crash
    case Some(n) => TakeRefusal(n, h, env)
  }

  /** Back to the original session, reported by its origin, or passed on. */
  function TakeRefusal(n: Node, h: nat, env: Env): Outcome
    requires h < |n.handlers|
  {
    var hd := n.handlers[h];
    if hd.uuid in n.table then
      var original := n.table[hd.uuid];
      var hd' := hd.(uuid := original);
      var n' := Put(n.(table := n.table - {hd.uuid}), h, hd');
      if original in n'.table then PassRefusal(n', h, env)
      else Done(Put(n', h, hd'.(state := Closed)), [])
    else if hd.uuid in n.origins then
      Done(Put(n.(origins := n.origins - {hd.uuid}), h, hd.(state := Closed)), [Report(false, hd.uuid)])
    else PassRefusal(n, h, env)
  }

  /** The store forgets the id when the reservation of its handler is pre-reserved. */
  function Erased(n: Node, id: Id): Option<Node>
  {
    if id !in n.store then Some(n)
    else if n.store[id] >= |n.handlers| then None
    else
      var ptr := n.handlers[n.store[id]].ptr;
      if ptr.Null? then Some(n)
      else
        match L.Deref(n.cells, ptr)
        case None => None
        case Some(r) => if r.state == L.PreReserved then Some(n.(store := n.store - {id})) else Some(n)
  }

  /** Back to the source; if that is no port of this node, the thread just stops. */
  function PassRefusal(n: Node, h: nat, env: Env): Outcome
    requires h < |n.handlers|
  {
    var hd := n.handlers[h];
    if hd.source.None? then Crash
    else
      match Port(env.topology, hd.source.value)
      case None => Done(n, [])
      case Some(port) => Done(Put(n, h, hd.(state := Closed)), [Send(REF(hd.uuid), port)])
  }

  // ---- REP ----

  function HandleRep(n0: Node, h: nat, env: Env, m: Message): Outcome
    requires h < |n0.handlers| && m.REP?
  {
    var n := Resumed(n0, h);
    var hd := n.handlers[h].(state := Replenishing);
    if env.isMe(m.listener) then
      if hd.source.None? || Direct(hd.source.value, env).None? then Crash
      else Done(Put(n, h, hd.(state := Closed)), [Send(REF(hd.uuid), Direct(hd.source.value, env).value)])
    else if hd.uuid in n.store then
      match L.Deref(n.cells, hd.ptr)
      case None => Crash
      case Some(r) =>
        if exists a <- r.next :: Direct(a, env).None? then Crash
        else Done(Put(n, h, hd), SendAlong(REP(hd.uuid, r.listener), r.next, env))
    else Done(Put(n, h, hd.(state := Closed)), [])
  }

  function SendAlong(m: Message, next: seq<Byte>, env: Env): (outs: seq<Out>)
    requires forall a <- next :: Direct(a, env).Some?
    ensures |outs| == |next|
    ensures forall i | 0 <= i < |next| :: outs[i] == Send(m, Direct(next[i], env).value)
  {
    if next == [] then []
    else
      var k := |next| - 1;
      SendAlong(m, next[..k], env) + [Send(m, Direct(next[k], env).value)]
  }

  // ---- Timeouts ----

  datatype Timer = EarTimer | MarTimer | BidTimer | RepTimer

  function Expire(n: Node, h: nat, timer: Timer): Outcome
    requires h < |n.handlers|
  {
    var hd := n.handlers[h];
    if hd.state == Closed || (hd.state == Reserved && !timer.RepTimer?) then Done(n, [])
    else
      match L.Replenish(n.cells, hd.ptr)
      case None => Crash
      case Some(cells) =>
        var tally := if timer.RepTimer? then hd.tally else hd.tally.(bids := []);
        Done(Put(n.(cells := cells), h, hd.(state := Closed, tally := tally)), [])
  }

  function Handle(n: Node, h: nat, env: Env, m: Message): Outcome
    requires h < |n.handlers|
  {
    match m
    case EAR(_, _, _, _) => HandleEar(n, h, env, m)
    case MAR(_, _, _, _) => HandleMar(n, h, env, m)
    case BID(_, _) => HandleBid(n, h, m)
    case ACC(_) => HandleAcc(n, h, env)
    case REF(_) => HandleRef(n, h, env)
    case REP(_, _) => HandleRep(n, h, env, m)
  }
}

/** Process: routing a message to the handler of its session. */
module Processes {
  import opened Basics
  import opened Identifiers
  import opened Auction
  import opened Protocol
  import opened Handlers
  import L = Ledger

  /** Some key of the store carries the time stamp. */
  ghost predicate Known(n: Node, t: Time)
  {
    exists k <- n.store :: k.time == t
  }

  ghost predicate IsOrigin(n: Node, t: Time)
  {
    exists o <- n.origins :: o.time == t
  }

  predicate IsRequest(m: Message)
  {
    m.MAR? || (m.EAR? && !m.payload.Empty?)
  }

  ghost predicate Elsewhere(n: Node, id: Id, k: Id)
  {
    k in n.store && k.time == id.time && k != id
  }

  /** is_uuid_in_store when it is not a mere test: another key of the session is renamed to the id
      asked for, and so is its handler. A key equal to the sentinel is overlooked. */
  ghost function Renamed(n: Node, id: Id): Option<Node>
  {
    if exists k :: Elsewhere(n, id, k) then
      var other :| Elsewhere(n, id, other);
      if other == SENTINEL then Some(n)
      else if n.store[other] >= |n.handlers| then None
      else
        var h := n.store[other];
        Some(Put(n.(store := n.store[id := h] - {other}), h, n.handlers[h].(uuid := id)))
    else Some(n)
  }

  datatype Lookup = Nowhere(node: Node) | Missing | Fresh | Found(node: Node, h: nat)

  /** From the message to a handler of the store (the `_store.at` lookup and what precedes it). */
  ghost function Locate(n: Node, env: Env, m: Message): Lookup
  {
    var origin, known := IsOrigin(n, m.id.time), Known(n, m.id.time);
    var mine := m.EAR? && env.isMe(m.listener) && known;
    if known && IsRequest(m) then Nowhere(n)
    else if !known then Fresh
    else
      var renamed := if origin || mine then Some(n) else Renamed(n, m.id);
      match renamed
      case None => Missing
      case Some(n') =>
        if mine && m.id !in n'.store then Nowhere(n')
        else Fetch(n', if origin && m.id in n'.table then n'.table[m.id] else m.id)
  }

  /** get_handler, which may rename once more. */
  ghost function Fetch(n: Node, id: Id): Lookup
  {
    if id !in n.store then Missing
    else
      match Renamed(n, id)
      case None => Missing
      case Some(n') => if n'.store[id] < |n'.handlers| then Found(n', n'.store[id]) else Missing
  }

  function Marked(hd: Handler, m: Message, source: Byte): Handler
  {
    if m.REF? then hd else hd.(source := Some(source))
  }

  function NewHandler(id: Id): Handler
  {
    Handler(id, Ready, Tally(0, 0, []), L.Null, None, false)
  }

  function Created(n: Node, id: Id): Node
  {
    n.(store := n.store[id := |n.handlers|], handlers := n.handlers + [NewHandler(id)])
  }

  predicate Listens(s: HandlerState)
  {
    s == Replenishing || s == PreReserved || s == AuctionWaiting || s == Reserved || s == Ready
  }

  datatype Route = Lost | Discarded(node: Node) | Handed(node: Node, h: nat)

  /** What Process does with a message: a handler resumes or is created for it, it is left as a bid of
      a blocked auction, or it is discarded. */
  ghost function Routed(n: Node, env: Env, source: Byte, m: Message): Route
  {
    match Locate(n, env, m)
    case Nowhere(n') => Discarded(n')
    case Missing => Lost
    case Fresh =>
      var n', h := Created(n, m.id), |n.handlers|;
      Handed(Put(n', h, Marked(n'.handlers[h], m, source)), h)
    case Found(n', h) =>
      var hd := n'.handlers[h];
      if hd.running then
        if hd.state == AuctionWaiting && m.BID?
        then Discarded(Put(n', h, hd.(tally := Arrive(hd.tally, Bid(m.value, source)))))
        else Discarded(n')
      else if !Listens(hd.state) then Discarded(n')
      else Handed(Put(n', h, Marked(hd, m, source)), h)
  }

  /** One turn of the loop of Process: a message and the address it came from. */
  ghost function Deliver(n: Node, env: Env, source: Byte, m: Message): Outcome
  {
    match Routed(n, env, source, m)
    case Lost => Crash
    case Discarded(n') => Done(n', [])
    case Handed(n', h) => if h < |n'.handlers| then Handle(n', h, env, m) else Crash
  }

  // ---- Steps of a node ----

  datatype Event =
    | Arrival(source: Byte, msg: Message)
    | Timeout(h: nat, timer: Timer)
    | Awakening(h: nat, draw: nat -> Entropy)
    | OriginMark(id: Id)

  /** What one event does to a node. A timeout needs an existing handler, an awakening a blocked one. */
  ghost function Step(n: Node, env: Env, e: Event): Outcome
  {
    match e
    case Arrival(source, m) => Deliver(n, env, source, m)
    case Timeout(h, timer) => if h < |n.handlers| then Expire(n, h, timer) else Done(n, [])
    case Awakening(h, draw) =>
      if h < |n.handlers| && n.handlers[h].running then Wake(n, h, env, draw) else Done(n, [])
    case OriginMark(id) => Done(n.(origins := n.origins + {id}), [])
  }
}
