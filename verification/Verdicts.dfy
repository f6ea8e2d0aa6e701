/** What the origin of a session reports: accepted at most once, failed at most once, and never
    accepted after failed. */
module Verdicts {
  import opened Basics
  import opened Identifiers
  import opened Auction
  import opened Capabilities
  import opened Protocol
  import opened Handlers
  import opened Processes
  import opened Sessions
  import opened Isolation
  import opened Terminal
  import opened Acceptance
  import opened Fidelity
  import L = Ledger

  // ---- Where reports come from ----

  ghost predicate Silent(outs: seq<Out>)
  {
    forall i | 0 <= i < |outs| :: outs[i].Send?
  }

  lemma ForwardIsSilent(n: Node, h: nat, env: Env, listener: Byte)
    requires h < |n.handlers| && Forward(n, h, env, listener).Done?
    ensures Silent(Forward(n, h, env, listener).outs)
  {
    hide L.Deref;
    hide L.Store;
  }

  lemma EarIsSilent(n: Node, h: nat, env: Env, m: Message)
    requires h < |n.handlers| && m.EAR? && HandleEar(n, h, env, m).Done?
    ensures Silent(HandleEar(n, h, env, m).outs)
  {
    hide L.Admit;
    hide L.MarkReserved;
    hide L.MarkPreReserved;
    hide L.LastOf;
    hide Forward;
    forall n': Node, l: Byte | h < |n'.handlers| && Forward(n', h, env, l).Done? ensures Silent(Forward(n', h, env, l).outs) {
      ForwardIsSilent(n', h, env, l);
    }
  }

  lemma MarIsSilent(n: Node, h: nat, env: Env, m: Message)
    requires h < |n.handlers| && m.MAR? && HandleMar(n, h, env, m).Done?
    ensures Silent(HandleMar(n, h, env, m).outs)
  {
    hide L.Admit;
    hide L.MarkPreReserved;
  }

  lemma RepIsSilent(n: Node, h: nat, env: Env, m: Message)
    requires h < |n.handlers| && m.REP? && HandleRep(n, h, env, m).Done?
    ensures Silent(HandleRep(n, h, env, m).outs)
  {
    hide L.Deref;
    hide L.Adopt;
    hide L.Adopted;
  }

  lemma WakeIsSilent(n: Node, h: nat, env: Env, draw: nat -> Entropy)
    requires h < |n.handlers| && Wake(n, h, env, draw).Done?
    ensures Silent(Wake(n, h, env, draw).outs)
  {
    hide L.Deref;
    hide Winners;
    hide Translations;
  }

  /** An ACC either reports success of an origin id, leaving its handler reserved, or is silent. */
  lemma AccReports(n: Node, h: nat, env: Env)
    requires h < |n.handlers| && HandleAcc(n, h, env).Done?
    ensures var o, id := HandleAcc(n, h, env), n.handlers[h].uuid;
            || Silent(o.outs)
            || (&& o.outs == [Report(true, id)] && id in n.origins && id !in n.table
                && n.handlers[h].state != Reserved
                && o.node.store == n.store && o.node.table == n.table && o.node.origins == n.origins
                && |o.node.handlers| == |n.handlers|
                && o.node.handlers[h].state == Reserved && o.node.handlers[h].uuid == id
                && o.node.handlers[h].running == n.handlers[h].running)
  {
    hide L.Deref;
    hide L.Adopt;
    hide L.Adopted;
    hide L.MarkReserved;
    hide L.Store;
  }

  /** A REF either reports failure of an origin id, which is one no longer, or is silent and keeps
      every origin id. */
  lemma RefReports(n0: Node, h: nat, env: Env)
    requires h < |n0.handlers| && HandleRef(n0, h, env).Done?
    ensures var o, id := HandleRef(n0, h, env), n0.handlers[h].uuid;
            || (Silent(o.outs) && o.node.origins == n0.origins && (id in n0.table || id !in n0.origins))
            || (o.outs == [Report(false, id)] && id in n0.origins && o.node.origins == n0.origins - {id})
  {
    hide L.Adopt;
    hide L.Adopted;
    hide L.Deref;
    hide Erased;
    var n := Resumed(n0, h);
    ErasedShape(n, n.handlers[h].uuid);
  }

  /** What a successful report leaves behind: the handler under the origin id itself, closed or with a
      reserved entry. */
  ghost predicate Answered(n: Node, id: Id)
  {
    && id in n.origins && id !in n.table && id in n.store && n.store[id] < |n.handlers|
    && var hd := n.handlers[n.store[id]];
       && hd.uuid == id && !hd.running
       && (hd.state == Closed || ((hd.state == Reserved || hd.state == Replenishing) && FirstReserved(n.cells, id.time)))
  }

  /** One step of an acting handler reports at most one verdict, about its own id. */
  lemma HandleReports(n: Node, h: nat, env: Env, m: Message)
    requires Acting(n, h) && Addressed(n.cells, n.slot) && Handle(n, h, env, m).Done?
    ensures var o, id := Handle(n, h, env, m), n.handlers[h].uuid;
            || (Silent(o.outs) && o.node.origins == n.origins)
            || (o.outs == [Report(true, id)] && m.ACC? && n.handlers[h].state != Reserved
                && Answered(o.node, id) && id in n.origins && o.node.origins == n.origins)
            || (o.outs == [Report(false, id)] && m.REF? && id in n.origins && o.node.origins == n.origins - {id})
  {
    hide HandleEar;
    hide HandleMar;
    hide HandleBid;
    hide HandleAcc;
    hide HandleRef;
    hide HandleRep;
    match m
    case EAR(_, _, _, _) => EarIsSilent(n, h, env, m); EarIsLocal(n, h, env, m);
    case MAR(_, _, _, _) => MarIsSilent(n, h, env, m); MarIsLocal(n, h, env, m);
    case BID(_, _) => BidIsLocal(n, h, m); BidIsSilent(n, h, m);
    case ACC(_) =>
      AccReports(n, h, env);
      AccShape(n, h, env);
      if n.handlers[h].state != Reserved {
        AccReserves(n, h, env);
      }
    case REF(_) => RefReports(n, h, env);
    case REP(_, _) => RepIsSilent(n, h, env, m); RepIsLocal(n, h, env, m);
  }

  lemma BidIsSilent(n: Node, h: nat, m: Message)
    requires h < |n.handlers| && m.BID? && HandleBid(n, h, m).Done?
    ensures HandleBid(n, h, m).outs == []
  {
  }

  // ---- Verdicts of one step ----

  function VerdictsIn(outs: seq<Out>, id: Id): seq<bool>
  {
    if outs == [] then []
    else
      var last := outs[|outs| - 1];
      VerdictsIn(outs[..|outs| - 1], id) + if last.Report? && last.id == id then [last.ok] else []
  }

  lemma {:induction false} NoVerdict(outs: seq<Out>, id: Id)
    requires forall i | 0 <= i < |outs| :: outs[i].Report? ==> outs[i].id != id
    ensures VerdictsIn(outs, id) == []
  {
    if outs != [] {
      NoVerdict(outs[..|outs| - 1], id);
    }
  }

  lemma {:induction false} OneVerdict(ok: bool, id: Id, id': Id)
    ensures VerdictsIn([Report(ok, id)], id') == if id == id' then [ok] else []
  {
    assert [Report(ok, id)][..0] == [];
  }

  /** How a step that took n to n' may bear on the verdict about id. */
  datatype Bearing = Neutral | Success | Failure

  ghost predicate Bears(n: Node, e: Event, n': Node, outs: seq<Out>, id: Id, b: Bearing)
  {
    match b
    case Neutral =>
      && VerdictsIn(outs, id) == []
      && (id in n.origins ==> id in n'.origins)
      && (id in n'.origins ==> id in n.origins || e == OriginMark(id))
    case Success => VerdictsIn(outs, id) == [true] && id in n.origins && Answered(n', id)
    case Failure => VerdictsIn(outs, id) == [false] && id in n.origins && id !in n'.origins
  }

  lemma RenameKeepsOrigins(n: Node, id: Id)
    requires Renamed(n, id).Some?
    ensures Renamed(n, id).value.origins == n.origins
  {
  }

  lemma RoutingKeepsOrigins(n: Node, env: Env, source: Byte, m: Message)
    requires !Routed(n, env, source, m).Lost?
    ensures Routed(n, env, source, m).node.origins == n.origins
  {
    hide Renamed;
    forall n': Node, id: Id | Renamed(n', id).Some? ensures Renamed(n', id).value.origins == n'.origins {
      RenameKeepsOrigins(n', id);
    }
  }

  lemma ArrivalBears(n: Node, env: Env, source: Byte, m: Message, id: Id) returns (b: Bearing)
    requires Index(n) && Owned(n) && m.id != SENTINEL && Deliver(n, env, source, m).Done?
    ensures var o := Deliver(n, env, source, m);
            Bears(n, Arrival(source, m), o.node, o.outs, id, b)
  {
    hide Routed;
    hide Handle;
    hide Index;
    hide Answered;
    hide Without;
    hide SameElsewhere;
    b := Neutral;
    RoutingKeepsOrigins(n, env, source, m);
    RoutingIsConfined(n, env, source, m);
    RoutingKeepsIndex(n, env, source, m);
    var route, outs := Routed(n, env, source, m), Deliver(n, env, source, m).outs;
    if route.Handed? {
      HandleReports(route.node, route.h, env, m);
      var id' := route.node.handlers[route.h].uuid;
      if |outs| == 1 && outs[0].Report? {
        OneVerdict(outs[0].ok, id', id);
        if id' == id {
          b := if outs[0].ok then Success else Failure;
        }
      } else {
        NoVerdict(outs, id);
      }
    }
  }

  lemma StepBears(n: Node, env: Env, e: Event, id: Id) returns (b: Bearing)
    requires Index(n) && Owned(n) && Sound(n, env, e) && Step(n, env, e).Done?
    ensures Bears(n, e, Step(n, env, e).node, Step(n, env, e).outs, id, b)
  {
    hide Deliver;
    hide Wake;
    hide Index;
    hide L.Replenish;
    hide Answered;
    b := Neutral;
    match e
    case Arrival(source, m) => b := ArrivalBears(n, env, source, m, id);
    case Timeout(_, _) =>
    case Awakening(h, draw) =>
      if h < |n.handlers| && n.handlers[h].running {
        WakeIsSilent(n, h, env, draw);
        NoVerdict(Wake(n, h, env, draw).outs, id);
        var k := WakeShape(n, h, env, draw);
      }
    case OriginMark(_) =>
  }

  // ---- After a success ----

  /** The assumption on the events of the session: once it is known, an EAR without requirements gets
      no bid. */
  ghost predicate Plain(n: Node, env: Env, e: Event, s: Time)
  {
    e.Arrival? && e.msg.id.time == s && e.msg.EAR? && e.msg.payload.Empty? && Known(n, s) ==>
      RefusesNothing(env.offer, e.msg.priority)
  }

  lemma AnsweredRoute(n: Node, env: Env, source: Byte, m: Message, id: Id)
    requires Index(n) && m.id.time == id.time && Answered(n, id)
    ensures var route, h := Routed(n, env, source, m), n.store[id];
            || route.Lost?
            || route == Discarded(n)
            || (route == Handed(Put(n, h, Marked(n.handlers[h], m, source)), h)
                && n.handlers[h].state != Closed && !IsRequest(m))
  {
    assert Known(n, id.time) && IsOrigin(n, id.time);
    OnlyKey(n, id);
    if m.id in n.table {
      TranslationFits(n, m.id);
    }
    hide Index;
    hide FirstReserved;
  }

  lemma OnlyKey(n: Node, id: Id)
    requires Index(n) && id in n.store
    ensures n.store[id] < |n.handlers| && forall k <- n.store :: k.time == id.time ==> k == id
    ensures Renamed(n, id) == Some(n)
  {
    assert forall k :: !Elsewhere(n, id, k);
  }

  /** The handler of an answered session, about to act on a message. */
  ghost predicate Resuming(n: Node, h: nat, id: Id)
  {
    && Answered(n, id) && n.store[id] == h && n.handlers[h].state != Closed
  }

  lemma BidCloses(n: Node, h: nat, m: Message, id: Id)
    requires m.BID? && Resuming(n, h, id)
    ensures HandleBid(n, h, m).Done? && HandleBid(n, h, m).outs == [] && Answered(HandleBid(n, h, m).node, id)
  {
  }

  lemma RepKeepsAnswered(n: Node, h: nat, env: Env, m: Message, id: Id)
    requires m.REP? && Resuming(n, h, id) && HandleRep(n, h, env, m).Done?
    ensures Answered(HandleRep(n, h, env, m).node, id)
  {
    hide L.Adopt;
    hide L.Adopted;
    hide L.Deref;
    hide FirstReserved;
    AdoptKeepsFirst(n.cells, id, id.time);
  }

  lemma AccKeepsAnswered(n: Node, h: nat, env: Env, id: Id)
    requires Resuming(n, h, id) && Addressed(n.cells, n.slot) && HandleAcc(n, h, env).Done?
    ensures HandleAcc(n, h, env).outs == [] && Answered(HandleAcc(n, h, env).node, id)
  {
    hide HandleAcc;
    hide L.Adopt;
    hide L.Adopted;
    hide FirstReserved;
    AdoptKeepsFirst(n.cells, id, id.time);
    if n.handlers[h].state == Reserved {
      AccAgain(n, h, env);
    } else {
      AccReserves(n, h, env);
    }
  }

  /** Only handler h is changed: it is closed now. */
  ghost predicate JustClosed(n: Node, h: nat, o: Outcome)
  {
    o.Done? ==>
      && h < |n.handlers| && |o.node.handlers| == |n.handlers| && o.node.store == n.store && o.node.table == n.table
      && o.node.origins == n.origins && o.node.handlers[h].uuid == n.handlers[h].uuid
      && o.node.handlers[h].running == n.handlers[h].running && o.node.handlers[h].state == Closed
  }

  lemma NothingAdmitted(n: Node, h: nat, env: Env, m: Message)
    requires h < |n.handlers| && m.EAR? && RefusesNothing(env.offer, m.priority)
    requires n.handlers[h].ptr.Detached? && n.handlers[h].ptr.res.caps == NO_CAPS
    ensures JustClosed(n, h, EarAtListener(n, h, env, m.priority)) && JustClosed(n, h, EarAtRelay(n, h, env, m))
  {
  }

  lemma EarCloses(n: Node, h: nat, env: Env, m: Message, id: Id)
    requires m.EAR? && m.payload.Empty? && m.id.time == id.time && Resuming(n, h, id) && Keys(n)
    requires RefusesNothing(env.offer, m.priority) && HandleEar(n, h, env, m).Done?
    ensures Answered(HandleEar(n, h, env, m).node, id)
  {
    hide EarAtListener;
    hide EarAtRelay;
    hide Forward;
    hide L.Adopt;
    hide L.Adopted;
    hide FirstReserved;
    hide RefusesNothing;
    var hd := Resumed(n, h).handlers[h];
    var n' := Put(Resumed(n, h), h, hd.(state := Assessing, ptr := L.Detached(Statement(id, m.priority, NO_CAPS, m.listener))));
    NothingAdmitted(n', h, env, m);
  }

  lemma AnsweredMarked(n: Node, h: nat, source: Option<Byte>, id: Id)
    requires Answered(n, id) && n.store[id] == h && n.handlers[h].state != Closed
    ensures Resuming(Put(n, h, n.handlers[h].(source := source)), h, id)
  {
  }

  lemma {:induction false} AnsweredHandled(n: Node, h: nat, env: Env, m: Message, id: Id)
    requires Acting(n, h) && Addressed(n.cells, n.slot) && Resuming(n, h, id) && !IsRequest(m) && m.id.time == id.time
    requires m.EAR? ==> RefusesNothing(env.offer, m.priority)
    requires Handle(n, h, env, m).Done?
    ensures var o := Handle(n, h, env, m);
            (Answered(o.node, id) && VerdictsIn(o.outs, id) == []) || VerdictsIn(o.outs, id) == [false]
  {
    hide HandleEar;
    hide HandleMar;
    hide HandleBid;
    hide HandleAcc;
    hide HandleRef;
    hide HandleRep;
    hide RefusesNothing;
    hide FirstReserved;
    var outs := Handle(n, h, env, m).outs;
    match m
    case BID(_, _) => BidCloses(n, h, m, id);
    case ACC(_) => AccKeepsAnswered(n, h, env, id);
    case REF(_) => RefReports(n, h, env); OneVerdict(false, id, id);
    case EAR(_, _, _, _) => EarCloses(n, h, env, m, id); EarIsSilent(n, h, env, m); NoVerdict(outs, id);
    case MAR(_, _, _, _) =>
    case REP(_, _) => RepKeepsAnswered(n, h, env, m, id); RepIsSilent(n, h, env, m); NoVerdict(outs, id);
  }

  lemma {:induction false} AnsweredArrival(n: Node, env: Env, source: Byte, m: Message, id: Id)
    requires Index(n) && Owned(n) && m.id != SENTINEL && m.id.time == id.time && Answered(n, id)
    requires Plain(n, env, Arrival(source, m), id.time) && Deliver(n, env, source, m).Done?
    ensures var o := Deliver(n, env, source, m);
            (Answered(o.node, id) && VerdictsIn(o.outs, id) == []) || VerdictsIn(o.outs, id) == [false]
  {
    hide Routed;
    hide Handle;
    hide FirstReserved;
    hide RefusesNothing;
    hide Acting;
    assert Known(n, id.time);
    AnsweredRoute(n, env, source, m, id);
    RoutingKeepsIndex(n, env, source, m);
    hide Index;
    var route, h := Routed(n, env, source, m), n.store[id];
    if route.Handed? {
      AnsweredMarked(n, h, Marked(n.handlers[h], m, source).source, id);
      AnsweredHandled(route.node, h, env, m, id);
    }
  }

  lemma {:induction false} AnsweredStep(n: Node, env: Env, e: Event, id: Id)
    requires Invariant(n) && Sound(n, env, e) && Step(n, env, e).Done?
    requires Answered(n, id) && Plain(n, env, e, id.time)
    ensures var o := Step(n, env, e);
            (Answered(o.node, id) && VerdictsIn(o.outs, id) == []) || VerdictsIn(o.outs, id) == [false]
  {
    hide Deliver;
    hide Wake;
    hide Index;
    hide Retired;
    hide Owned;
    hide L.Replenish;
    if Concerns(n, e, id.time) {
      var h := n.store[id];
      assert Serves(n, id.time, h);
      match e
      case Arrival(source, m) => AnsweredArrival(n, env, source, m, id);
      case Timeout(i, _) =>
        if i < |n.handlers| {
          OneHandler(n, id.time, h, i);
        }
      case Awakening(i, _) =>
        if i < |n.handlers| {
          OneHandler(n, id.time, h, i);
        }
      case OriginMark(_) =>
    } else {
      AnsweredElsewhere(n, env, e, id);
    }
  }

  lemma {:induction false} OnlyFirst(cells: Cells, t: Time)
    ensures var k := L.FamilyPosition(cells, t);
            if k < |cells| then Only(cells, t) != [] && Only(cells, t)[0] == cells[k] else Only(cells, t) == []
  {
    if cells != [] {
      var front, k := cells[..|cells| - 1], L.FamilyPosition(cells, t);
      OnlyFirst(front, t);
      if k < |front| {
        FamilyPositionIs(front, t, k);
      }
    }
  }

  lemma {:induction false} AnsweredElsewhere(n: Node, env: Env, e: Event, id: Id)
    requires Invariant(n) && Sound(n, env, e) && Step(n, env, e).Done?
    requires Answered(n, id) && !Concerns(n, e, id.time)
    ensures var o := Step(n, env, e); Answered(o.node, id) && VerdictsIn(o.outs, id) == []
  {
    hide Step;
    hide Index;
    hide Retired;
    hide Owned;
    hide Sound;
    hide Confined;
    hide Only;
    var t := SomeSession(n, e);
    StepIsConfined(n, env, e, t);
    ConfinedSameFor(n, Step(n, env, e).node, t, id.time);
    OnlyFirst(n.cells, id.time);
    OnlyFirst(Step(n, env, e).node.cells, id.time);
    NoVerdict(Step(n, env, e).outs, id);
  }

  // ---- Verdicts of whole runs ----

  ghost function VerdictsOf(n: Node, trace: seq<(Env, Event)>, id: Id): seq<bool>
  {
    if trace == [] then []
    else
      var front, last := trace[..|trace| - 1], trace[|trace| - 1];
      VerdictsOf(n, front, id) +
      (match Run(n, front)
       case None => []
       case Some(n') => (match Step(n', last.0, last.1)
                         case Crash => []
                         case Done(_, outs) => VerdictsIn(outs, id)))
  }

  /** A repeated EAR without requirements gets no bid, and the id is not marked as an origin again once
      it was reported to have failed. */
  ghost predicate PlainRun(n: Node, trace: seq<(Env, Event)>, id: Id)
  {
    forall i | 0 <= i < |trace| ::
      && (var before := Run(n, trace[..i]); before.Some? ==> Plain(before.value, trace[i].0, trace[i].1, id.time))
      && (trace[i].1 == OriginMark(id) ==> false !in VerdictsOf(n, trace[..i], id))
  }

  ghost predicate Matches(n: Node, id: Id, verdicts: seq<bool>)
  {
    || verdicts == []
    || (verdicts == [true] && Answered(n, id))
    || ((verdicts == [false] || verdicts == [true, false]) && id !in n.origins)
  }

  lemma {:induction false} VerdictsOn(n: Node, env: Env, e: Event, id: Id, verdicts: seq<bool>)
    requires Invariant(n) && Sound(n, env, e) && Step(n, env, e).Done? && Plain(n, env, e, id.time)
    requires Matches(n, id, verdicts) && (e == OriginMark(id) ==> false !in verdicts)
    ensures Matches(Step(n, env, e).node, id, verdicts + VerdictsIn(Step(n, env, e).outs, id))
  {
    hide Step;
    hide Index;
    hide Retired;
    hide Owned;
    hide Sound;
    hide Plain;
    hide Answered;
    var b := StepBears(n, env, e, id);
    var v := VerdictsIn(Step(n, env, e).outs, id);
    if verdicts == [true] {
      AnsweredStep(n, env, e, id);
    }
    assert v == [] ==> verdicts + v == verdicts;
    assert false in [false] && false in [true, false];
  }

  lemma {:induction false} VerdictsMatch(n: Node, trace: seq<(Env, Event)>, id: Id)
    requires Invariant(n) && SoundRun(n, trace) && Run(n, trace).Some? && PlainRun(n, trace, id)
    ensures Matches(Run(n, trace).value, id, VerdictsOf(n, trace, id))
  {
    hide Step;
    hide Sound;
    hide Invariant;
    hide Matches;
    if trace != [] {
      var front, last := trace[..|trace| - 1], trace[|trace| - 1];
      RunOn(n, trace);
      assert PlainRun(n, front, id) by {
        assert forall i | 0 <= i < |front| :: front[..i] == trace[..i] && front[i] == trace[i];
      }
      VerdictsMatch(n, front, id);
      InvariantOn(n, front);
      VerdictsOn(Run(n, front).value, last.0, last.1, id, VerdictsOf(n, front, id));
    } else {
      EmptyMatches(n, id);
    }
  }

  lemma EmptyMatches(n: Node, id: Id)
    ensures Matches(n, id, [])
  {
  }

  /** In every run of a node, the verdicts on an origin id are: none, accepted, failed, or accepted and
      later failed. Runs with REP are included, and runs with repeated EARs without requirements too,
      as long as these get no bid (which those of Resources never do). */
  lemma {:induction false} OriginVerdicts(trace: seq<(Env, Event)>, id: Id)
    requires SoundRun(INITIAL_NODE, trace) && Run(INITIAL_NODE, trace).Some? && PlainRun(INITIAL_NODE, trace, id)
    ensures var verdicts := VerdictsOf(INITIAL_NODE, trace, id);
            verdicts == [] || verdicts == [true] || verdicts == [false] || verdicts == [true, false]
  {
    InitialInvariant();
    VerdictsMatch(INITIAL_NODE, trace, id);
  }
}
