/** A network of nodes that exchange messages, with no forged ones: every message a node receives was
    sent by a node wired to it, or is an EAR or a REP handed in from outside. Messages may be lost,
    repeated and overtake each other. */
module Network {
  import opened Basics
  import opened Identifiers
  import opened Auction
  import opened Protocol
  import opened Handlers
  import opened Processes
  import opened Sessions
  import opened Isolation
  import opened Terminal
  import opened Acceptance
  import L = Ledger

  // ---- One acceptance ----

  /** An ACC sent, or success reported by an origin. */
  predicate Accepting(out: Out)
  {
    match out
    case Send(m, _) => m.ACC?
    case Report(ok, _) => ok
  }

  lemma AdmitPushes(cells: Cells, slot: nat, p: Pointer, priority: Byte, offer: L.Offer)
    requires L.Admit(cells, p, priority, offer, slot).Accepted?
    ensures var cells' := L.Admit(cells, p, priority, offer, slot).cells;
            |cells'| == |cells| + 1 && cells'[|cells|].addr == slot
  {
  }

  lemma AtListenerReserves(n: Node, h: nat, env: Env, priority: Byte)
    requires OwnAt(n, h) && EarAtListener(n, h, env, priority).Done?
    requires EarAtListener(n, h, env, priority).outs[0].msg.ACC?
    ensures ReservesAt(n.cells, EarAtListener(n, h, env, priority).node.cells, n.handlers[h].uuid.time, |n.cells|)
  {
    hide L.Admit;
    hide L.MarkReserved;
    AtListenerIsTame(n, h, env, priority);
    match Admitted(n, h, priority, env)
    case Fault =>
    case Refused(_, _) =>
    case Accepted(cells, _) =>
      AdmitPushes(n.cells, n.slot, n.handlers[h].ptr, priority, env.offer);
      AdmitEvolves(n.cells, n.slot, n.handlers[h].ptr, priority, env.offer, n.handlers[h].uuid.time);
      EvolvesAddressed(n.cells, n.slot, cells, n.slot + 1, n.handlers[h].uuid.time);
      MarkReserves(cells, n.slot + 1, n.slot, |n.cells|);
  }

  ghost predicate Accepts(outs: seq<Out>)
  {
    exists k | 0 <= k < |outs| :: Accepting(outs[k])
  }

  lemma ForwardAcceptsNot(n: Node, h: nat, env: Env, listener: Byte)
    requires h < |n.handlers| && Forward(n, h, env, listener).Done?
    ensures !Accepts(Forward(n, h, env, listener).outs)
  {
    hide L.Deref;
    hide L.Store;
  }

  lemma AtRelayAcceptsNot(n: Node, h: nat, env: Env, m: Message)
    requires h < |n.handlers| && m.EAR? && EarAtRelay(n, h, env, m).Done?
    ensures !Accepts(EarAtRelay(n, h, env, m).outs)
  {
    hide L.Admit;
    hide L.MarkPreReserved;
    hide Forward;
    forall n': Node | h < |n'.handlers| && Forward(n', h, env, m.listener).Done?
      ensures !Accepts(Forward(n', h, env, m.listener).outs)
    {
      ForwardAcceptsNot(n', h, env, m.listener);
    }
  }

  lemma AtListenerAccepts(n: Node, h: nat, env: Env, priority: Byte)
    requires h < |n.handlers| && EarAtListener(n, h, env, priority).Done? && Accepts(EarAtListener(n, h, env, priority).outs)
    ensures var outs := EarAtListener(n, h, env, priority).outs; outs != [] && outs[0].Send? && outs[0].msg.ACC?
  {
    hide L.Admit;
    hide L.MarkReserved;
  }

  lemma EarReserves(n0: Node, h: nat, env: Env, m: Message)
    requires OwnAt(n0, h) && m.EAR? && HandleEar(n0, h, env, m).Done? && Accepts(HandleEar(n0, h, env, m).outs)
    ensures env.isMe(m.listener) && Reserves(n0.cells, HandleEar(n0, h, env, m).node.cells, n0.handlers[h].uuid.time)
  {
    hide Forward;
    hide EarAtListener;
    hide EarAtRelay;
    hide L.Adopt;
    hide L.Adopted;
    ResumedIsOwn(n0, h);
    AdoptFinds(n0.cells, n0.handlers[h].uuid);
    var n := Resumed(n0, h);
    var hd := n.handlers[h];
    if hd.state == PreReserved || !m.payload.Malformed? {
      var hd' := if hd.state == PreReserved then hd
                 else hd.(state := Assessing,
                          ptr := L.Detached(Statement(hd.uuid, m.priority, Requested(m.payload), m.listener)));
      var n' := Put(n, h, hd');
      if env.isMe(m.listener) {
        AtListenerAccepts(n', h, env, m.priority);
        AtListenerReserves(n', h, env, m.priority);
        assert ReservesAt(n0.cells, HandleEar(n0, h, env, m).node.cells, hd.uuid.time, |n0.cells|);
      } else if HasBid(n', m.id) {
        ForwardAcceptsNot(Put(n', h, hd'.(ptr := L.LastOf(n'.cells, hd'.uuid, hd'.ptr))), h, env, m.listener);
      } else {
        AtRelayAcceptsNot(n', h, env, m);
      }
    }
  }

  lemma OthersAcceptNot(n: Node, h: nat, env: Env, m: Message)
    requires h < |n.handlers| && Handle(n, h, env, m).Done? && !m.EAR? && !m.ACC?
    ensures !Accepts(Handle(n, h, env, m).outs)
  {
    hide L.Admit;
    hide L.MarkPreReserved;
    hide L.Deref;
    hide L.Adopt;
    hide L.Adopted;
    hide HandleEar;
    hide HandleAcc;
    hide Erased;
  }

  /** Accepting takes an ACC, or an EAR at its listener, and a ledger entry of the session that this
      very step moves to RESERVED. */
  lemma HandleReserves(n: Node, h: nat, env: Env, m: Message)
    requires OwnAt(n, h) && Handle(n, h, env, m).Done? && Accepts(Handle(n, h, env, m).outs)
    ensures m.ACC? || (m.EAR? && env.isMe(m.listener))
    ensures Reserves(n.cells, Handle(n, h, env, m).node.cells, n.handlers[h].uuid.time)
  {
    hide HandleEar;
    hide HandleMar;
    hide HandleBid;
    hide HandleAcc;
    hide HandleRef;
    hide HandleRep;
    hide Reserves;
    hide OwnAt;
    OwnAtAddressed(n, h);
    if m.EAR? {
      EarReserves(n, h, env, m);
    } else if m.ACC? {
      if n.handlers[h].state == Reserved {
        AccAgain(n, h, env);
      } else {
        AccReserves(n, h, env);
      }
    } else {
      OthersAcceptNot(n, h, env, m);
    }
  }

  lemma OwnAtAddressed(n: Node, h: nat)
    requires OwnAt(n, h)
    ensures h < |n.handlers| && Addressed(n.cells, n.slot)
  {
  }

  lemma RoutingKeepsCells(n: Node, env: Env, source: Byte, m: Message)
    requires !Routed(n, env, source, m).Lost?
    ensures Routed(n, env, source, m).node.cells == n.cells
  {
    hide Renamed;
    forall n': Node, id: Id | Renamed(n', id).Some? ensures Renamed(n', id).value.cells == n'.cells {
      RenameKeepsCells(n', id);
    }
  }

  lemma RenameKeepsCells(n: Node, id: Id)
    requires Renamed(n, id).Some?
    ensures Renamed(n, id).value.cells == n.cells
  {
  }

  lemma WakeAcceptsNot(n: Node, h: nat, env: Env, draw: nat -> Entropy)
    requires h < |n.handlers| && Wake(n, h, env, draw).Done?
    ensures !Accepts(Wake(n, h, env, draw).outs)
  {
    hide L.Deref;
    hide Winners;
    hide Translations;
  }

  lemma StepReserves(n: Node, env: Env, e: Event)
    requires Invariant(n) && Sound(n, env, e) && Step(n, env, e).Done? && Accepts(Step(n, env, e).outs)
    ensures e.Arrival? && (e.msg.ACC? || (e.msg.EAR? && env.isMe(e.msg.listener)))
    ensures Reserves(n.cells, Step(n, env, e).node.cells, e.msg.id.time)
  {
    hide Routed;
    hide Handle;
    hide Wake;
    hide L.Replenish;
    hide Index;
    hide Owned;
    hide Retired;
    hide Reserves;
    match e
    case Arrival(source, m) =>
      RoutingKeepsIndex(n, env, source, m);
      RoutingIsConfined(n, env, source, m);
      RoutingKeepsCells(n, env, source, m);
      var route := Routed(n, env, source, m);
      if route.Handed? {
        OwnedAt(route.node, route.h);
        HandleReserves(route.node, route.h, env, m);
      }
    case Timeout(_, _) =>
    case Awakening(h, draw) =>
      if h < |n.handlers| && n.handlers[h].running {
        WakeAcceptsNot(n, h, env, draw);
      }
    case OriginMark(_) =>
  }

  lemma OwnedAt(n: Node, h: nat)
    requires Owned(n) && h < |n.handlers|
    ensures OwnAt(n, h)
  {
  }

  // ---- Histories of a network ----

  datatype Cause = Injected | SentBy(record: nat, out: nat)

  /** One step of the node at `place`. */
  datatype Record = Record(
    place: nat, env: Env, event: Event, cause: Cause, before: Node, after: Node, outs: seq<Out>)

  /** Whether what the first place sends to a locator may reach the second place. */
  type Wiring = (nat, Byte, nat) -> bool

  ghost function StateOf(history: seq<Record>, place: nat): Node
  {
    if history == [] then INITIAL_NODE
    else
      var last := history[|history| - 1];
      if last.place == place then last.after else StateOf(history[..|history| - 1], place)
  }

  /** Record j received what another record sent. */
  ghost predicate Received(wired: Wiring, history: seq<Record>, j: nat)
    requires j < |history| && history[j].event.Arrival?
  {
    match history[j].cause
    case Injected => history[j].event.msg.EAR? || history[j].event.msg.REP?
    case SentBy(i, k) =>
      && i < j && k < |history[i].outs| && history[i].outs[k].Send?
      && history[i].outs[k].msg == history[j].event.msg
      && wired(history[i].place, history[i].outs[k].locator, history[j].place)
  }

  ghost predicate Legal(wired: Wiring, history: seq<Record>)
  {
    forall j | 0 <= j < |history| ::
      var r := history[j];
      && r.before == StateOf(history[..j], r.place) && Sound(r.before, r.env, r.event)
      && Step(r.before, r.env, r.event) == Done(r.after, r.outs)
      && (r.event.Arrival? ==> Received(wired, history, j))
  }

  lemma {:induction false} StatesAreSound(wired: Wiring, history: seq<Record>, place: nat, j: nat)
    requires Legal(wired, history) && j <= |history|
    ensures Invariant(StateOf(history[..j], place))
  {
    hide Step;
    hide Sound;
    hide Invariant;
    if j == 0 {
      InitialInvariant();
    } else {
      var last := history[j - 1];
      assert history[..j][..j - 1] == history[..j - 1];
      StatesAreSound(wired, history, place, j - 1);
      if last.place == place {
        StepKeepsInvariant(last.before, last.env, last.event);
      }
    }
  }

  // ---- The accept chain ----

  /** Record j made one of its own node's entries of session s RESERVED. */
  ghost predicate Reserving(history: seq<Record>, j: nat, s: Time)
  {
    j < |history| && history[j].event.Arrival? && history[j].event.msg.id.time == s
    && Reserves(history[j].before.cells, history[j].after.cells, s)
  }

  /** Record j took up an ACC that record i sent. */
  ghost predicate PassedOn(wired: Wiring, history: seq<Record>, i: nat, j: nat)
  {
    && i < j < |history| && history[j].event.Arrival? && history[j].event.msg.ACC?
    && exists k | 0 <= k < |history[i].outs| ::
         history[i].outs[k].Send? && history[i].outs[k].msg == history[j].event.msg
         && wired(history[i].place, history[i].outs[k].locator, history[j].place)
  }

  /** From an EAR at its listener, ACC by ACC, to the last record; every record on the way reserved. */
  ghost predicate Chain(wired: Wiring, history: seq<Record>, chain: seq<nat>, s: Time)
  {
    && chain != [] && (forall i | 0 <= i < |chain| :: Reserving(history, chain[i], s))
    && (var first := history[chain[0]]; first.event.msg.EAR? && first.env.isMe(first.event.msg.listener))
    && (forall i | 0 < i < |chain| :: PassedOn(wired, history, chain[i - 1], chain[i]))
  }

  /** In every history: whenever an ACC is sent or an origin reports success, there is a finite chain
      of steps, each later than the one before, from the listener's acceptance of an EAR of that
      session to this one; every step on it took up the ACC of its predecessor and moved a ledger
      entry of its own node for that session to RESERVED. */
  lemma {:induction false} AcceptChain(wired: Wiring, history: seq<Record>, j: nat, k: nat) returns (chain: seq<nat>)
    requires Legal(wired, history) && j < |history| && k < |history[j].outs| && Accepting(history[j].outs[k])
    ensures Chain(wired, history, chain, SessionOf(history[j].outs[k]))
    ensures chain[|chain| - 1] == j
    decreases j
  {
    hide Step;
    hide Sound;
    hide Invariant;
    hide Reserves;
    var r := history[j];
    var s := SessionOf(r.outs[k]);
    StatesAreSound(wired, history, r.place, j);
    StepReserves(r.before, r.env, r.event);
    OutputStays(r.before, r.env, r.event, k);
    assert Reserving(history, j, s);
    if r.event.msg.ACC? {
      var i, out := r.cause.record, r.cause.out;
      var earlier := AcceptChain(wired, history, i, out);
      assert PassedOn(wired, history, i, j);
      Longer(wired, history, earlier, j, s);
      chain := earlier + [j];
    } else {
      chain := [j];
    }
  }

  lemma Longer(wired: Wiring, history: seq<Record>, chain: seq<nat>, j: nat, s: Time)
    requires Chain(wired, history, chain, s) && Reserving(history, j, s)
    requires PassedOn(wired, history, chain[|chain| - 1], j)
    ensures Chain(wired, history, chain + [j], s)
  {
    hide Reserving;
    hide PassedOn;
  }

  lemma OutputStays(n: Node, env: Env, e: Event, k: nat)
    requires Invariant(n) && Sound(n, env, e) && Step(n, env, e).Done? && e.Arrival? && k < |Step(n, env, e).outs|
    ensures SessionOf(Step(n, env, e).outs[k]) == e.msg.id.time
  {
    hide Step;
    hide Sound;
    hide Index;
    hide Owned;
    StepIsConfined(n, env, e, e.msg.id.time);
  }
}
