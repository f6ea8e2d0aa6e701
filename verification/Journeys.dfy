/** Whole histories in which a request succeeds: over any number of relays, and through an auction.
    They also show that the hypotheses about histories can be met. */
module Journeys {
  import opened Basics
  import opened Identifiers
  import opened Routes
  import opened Auction
  import opened Protocol
  import opened Handlers
  import opened Processes
  import opened Sessions
  import opened Isolation
  import opened Requests
  import opened Network
  import opened Passage
  import opened Outcomes
  import L = Ledger

  // ---- One more record ----

  /** A legal history goes on with any sound step of a node whose message, if it takes one, was sent. */
  lemma {:induction false} Grow(wired: Wiring, history: seq<Record>, r: Record)
    requires Legal(wired, history) && r.before == StateOf(history, r.place) && Sound(r.before, r.env, r.event)
    requires Step(r.before, r.env, r.event) == Done(r.after, r.outs)
    requires r.event.Arrival? ==> Received(wired, history + [r], |history|)
    ensures Legal(wired, history + [r])
    ensures forall p: nat :: StateOf(history + [r], p) == if p == r.place then r.after else StateOf(history, p)
  {
    hide Step;
    hide Sound;
    var longer := history + [r];
    forall j | 0 <= j < |longer|
      ensures longer[j].before == StateOf(longer[..j], longer[j].place)
      ensures Sound(longer[j].before, longer[j].env, longer[j].event)
      ensures Step(longer[j].before, longer[j].env, longer[j].event) == Done(longer[j].after, longer[j].outs)
      ensures longer[j].event.Arrival? ==> Received(wired, longer, j)
    {
      if j < |history| {
        assert longer[..j] == history[..j] && longer[j] == history[j];
      } else {
        assert longer[..j] == history;
      }
    }
    assert longer[..|history|] == history;
  }

  lemma SoundMark(n: Node, env: Env, id: Id)
    requires id != SENTINEL
    ensures Sound(n, env, OriginMark(id))
  {
  }

  /** The node of a place before it has heard of the request. */
  function Start(m: Message, place: nat): Node
  {
    if place == 0 then INITIAL_NODE.(origins := {m.id}) else INITIAL_NODE
  }

  lemma StartIsUnheard(m: Message, place: nat)
    ensures Unheard(Start(m, place), m.id.time) && m.id !in Start(m, place).table
  {
  }

  /** The application marks the origin of the request. */
  lemma {:induction false} Begin(wired: Wiring, env: Env, m: Message) returns (history: seq<Record>)
    requires m.id != SENTINEL
    ensures Legal(wired, history) && |history| == 1 && forall p: nat :: StateOf(history, p) == Start(m, p)
  {
    var r := Record(0, env, OriginMark(m.id), Injected, INITIAL_NODE, Start(m, 0), []);
    SoundMark(INITIAL_NODE, env, m.id);
    Grow(wired, [], r);
    history := [] + [r];
  }

  // ---- A line of any length ----

  /** A place on the way: its surroundings, and the addresses that the request, the answer to it and a
      release seem to come from. */
  datatype Stop = Stop(env: Env, from: Byte, back: Byte, release: Byte)

  /** What goes back from place i to the address a reaches place j. */
  ghost predicate LeadsBack(wired: Wiring, i: nat, env: Env, a: Byte, j: nat)
  {
    && |env.topology| <= 256 && a in env.topology
    && forall p: Byte | LeadsTo(env.topology, p, a) :: wired(i, p, j)
  }

  /** The origin, any number of relays and the listener, each relay with one shortest connection
      onwards and the port back; every node before the listener bids for the request. */
  ghost predicate Way(wired: Wiring, path: seq<Stop>, m: Message)
  {
    && |path| >= 2 && m.id != SENTINEL && m.EAR? && m.payload.Carries?
    && (forall i | 0 <= i < |path| - 1 :: Welcome(path[i].env, m) && !path[i].env.isMe(m.listener))
    && (forall i | 0 <= i < |path| - 1 ::
          var conns := Kept(path[i].env.conns(m.listener)); |conns| == 1 && wired(i, conns[0].locator, i + 1))
    && (forall i | 0 < i < |path| - 1 :: LeadsBack(wired, i, path[i].env, path[i].from, i - 1))
    && (var last := path[|path| - 1];
        var conns := Kept(last.env.conns(last.from));
        last.env.isMe(m.listener) && conns != [] && wired(|path| - 1, conns[0].locator, |path| - 2))
  }

  /** The entry and the node of a relay that has sent the request on. */
  function EntryAt(stop: Stop, m: Message): L.Reservation
    requires m.EAR?
    requires BidFor(stop.env, m).Some?
  {
    EntryFor(m, BidFor(stop.env, m).value, L.PreReserved, Some(stop.from))
  }

  function Passed(stop: Stop, m: Message, place: nat): Node
    requires m.EAR?
    requires BidFor(stop.env, m).Some?
  {
    With(Start(m, place), m, stop.from, PreReserved, EntryAt(stop, m), 2)
  }

  lemma WelcomeBid(env: Env, m: Message)
    requires Welcome(env, m)
    ensures m.EAR? && m.payload.Carries? && BidFor(env, m).Some? && BidFor(env, m).value != 0.0
  {
  }

  lemma {:induction false} PassedIsOpen(stop: Stop, m: Message, place: nat)
    requires m.EAR? && m.id != SENTINEL && BidFor(stop.env, m).Some?
    ensures var n := Passed(stop, m, place);
            && Open(n, 0, m.id, 0) && n.cells[0].res == EntryAt(stop, m) && n.table == map[] && n.handlers[0].source == Some(stop.from)
            && (m.id in n.origins <==> place == 0) && (IsOrigin(n, m.id.time) <==> place == 0)
  {
    StartIsUnheard(m, place);
    WithIsSole(Start(m, place), m, stop.from, PreReserved, EntryAt(stop, m), 2);
    var n := Passed(stop, m, place);
    if place == 0 {
      assert m.id in n.origins;
    }
  }

  /** Place k passes the request on. */
  lemma {:induction false} OutOne(wired: Wiring, path: seq<Stop>, m: Message, k: nat) returns (r: Record)
    requires Way(wired, path, m) && k < |path| - 1
    ensures BidFor(path[k].env, m).Some?
    ensures r == Record(k, path[k].env, Arrival(path[k].from, m), if k == 0 then Injected else SentBy(k, 0),
                        Start(m, k), Passed(path[k], m, k),
                        [Send(m, Kept(path[k].env.conns(m.listener))[0].locator)])
    ensures Sound(r.before, r.env, r.event) && Step(r.before, r.env, r.event) == Done(r.after, r.outs)
  {
    hide Welcome;
    hide Kept;
    hide Deliver;
    hide Sound;
    hide LeadsBack;
    var stop := path[k];
    WelcomeBid(stop.env, m);
    StartIsUnheard(m, k);
    Hop(Start(m, k), stop.env, stop.from, m);
    SoundArrival(Start(m, k), stop.env, stop.from, m);
    r := Record(k, stop.env, Arrival(stop.from, m), if k == 0 then Injected else SentBy(k, 0),
                Start(m, k), Passed(stop, m, k), [Send(m, Kept(stop.env.conns(m.listener))[0].locator)]);
  }

  /** The request has passed the first k places. */
  lemma {:induction false} Outward(wired: Wiring, path: seq<Stop>, m: Message, k: nat) returns (history: seq<Record>)
    requires Way(wired, path, m) && k < |path|
    ensures Legal(wired, history) && |history| == k + 1
    ensures forall p: nat | p >= k :: StateOf(history, p) == Start(m, p)
    ensures forall p: nat | p < k :: BidFor(path[p].env, m).Some? && StateOf(history, p) == Passed(path[p], m, p)
    ensures k > 0 ==> history[k].place == k - 1
                      && history[k].outs == [Send(m, Kept(path[k - 1].env.conns(m.listener))[0].locator)]
    ensures k > 0 ==> history[1].event == Arrival(path[0].from, m) && history[1].cause == Injected
  {
    hide Legal;
    hide Welcome;
    hide Kept;
    hide Step;
    hide Sound;
    hide Passed;
    hide LeadsBack;
    if k == 0 {
      history := Begin(wired, path[0].env, m);
    } else {
      var front := Outward(wired, path, m, k - 1);
      var r := OutOne(wired, path, m, k - 1);
      assert Received(wired, front + [r], k);
      Grow(wired, front, r);
      history := front + [r];
    }
  }

  // ---- The answer ----

  /** ACC or REF. */
  datatype Answer = Yes | No

  function Says(a: Answer, id: Id): Message
  {
    if a.Yes? then ACC(id) else REF(id)
  }

  /** The way ends at a listener that bids for the request, or does not. */
  ghost predicate Answered(wired: Wiring, path: seq<Stop>, m: Message, a: Answer)
  {
    && |path| >= 2 && m.EAR? && Way(wired, path, m)
    && var last := path[|path| - 1]; if a.Yes? then Welcome(last.env, m) else Unwelcome(last.env, m)
  }

  /** What place k sends back: the answer to the place before it, or a report at the origin. */
  ghost predicate SentBack(wired: Wiring, r: Record, m: Message, a: Answer, k: nat)
  {
    && r.place == k
    && if k == 0 then r.outs == [Report(a.Yes?, m.id)]
       else |r.outs| == 1 && r.outs[0].Send? && r.outs[0].msg == Says(a, m.id) && wired(k, r.outs[0].locator, k - 1)
  }

  /** The node of a place once the acceptance has passed it: its entry is reserved, with the place that
      accepted as its next node. */
  function Accepted(path: seq<Stop>, m: Message, k: nat): Node
    requires k < |path| && m.EAR?
    requires BidFor(path[k].env, m).Some?
  {
    if k == |path| - 1
    then With(Start(m, k), m, path[k].from, Reserved, EntryFor(m, BidFor(path[k].env, m).value, L.Reserved, None), 1)
    else TakenNode(Passed(path[k], m, k), 0, m.id, 0, path[k].back)
  }

  /** The node of a place once the refusal has passed it: it has closed. */
  ghost predicate Refused(n: Node, m: Message)
  {
    |n.handlers| == 1 && n.handlers[0].state == Closed && m.id !in n.origins
  }

  ghost predicate Left(n: Node, path: seq<Stop>, m: Message, a: Answer, k: nat)
  {
    && k < |path| && m.EAR?
    && if a.Yes? then BidFor(path[k].env, m).Some? && n == Accepted(path, m, k) else Refused(n, m)
  }

  lemma {:induction false} Turn(wired: Wiring, path: seq<Stop>, m: Message, a: Answer) returns (r: Record)
    requires Answered(wired, path, m, a)
    ensures var k := |path| - 1;
            && r.event == Arrival(path[k].from, m) && r.cause == SentBy(k, 0) && r.before == Start(m, k) && r.env == path[k].env
            && Sound(r.before, r.env, r.event) && Step(r.before, r.env, r.event) == Done(r.after, r.outs)
            && SentBack(wired, r, m, a, k) && Left(r.after, path, m, a, k)
  {
    hide Kept;
    hide Deliver;
    hide Sound;
    hide LeadsBack;
    var k := |path| - 1;
    var stop := path[k];
    StartIsUnheard(m, k);
    SoundArrival(Start(m, k), stop.env, stop.from, m);
    if a.Yes? {
      LastHop(Start(m, k), stop.env, stop.from, m);
      WelcomeBid(stop.env, m);
    } else {
      RefusesRequest(Start(m, k), stop.env, stop.from, m);
    }
    hide Welcome;
    var o := Deliver(Start(m, k), stop.env, stop.from, m);
    r := Record(k, stop.env, Arrival(stop.from, m), SentBy(k, 0), Start(m, k), o.node, o.outs);
  }

  lemma {:induction false} TakesAnswer(wired: Wiring, path: seq<Stop>, m: Message, a: Answer, k: nat)
    requires Way(wired, path, m) && k < |path| - 1
    ensures BidFor(path[k].env, m).Some?
    ensures var stop := path[k];
            var n := Passed(stop, m, k);
            var o := Deliver(n, stop.env, stop.back, Says(a, m.id));
            && o.Done? && Sound(n, stop.env, Arrival(stop.back, Says(a, m.id))) && Left(o.node, path, m, a, k)
            && if k == 0 then o.outs == [Report(a.Yes?, m.id)]
               else SentTo(o.outs, Says(a, m.id), stop.env.topology, stop.from)
  {
    hide Kept;
    hide Deliver;
    hide Sound;
    var stop := path[k];
    WelcomeBid(stop.env, m);
    hide Welcome;
    PassedIsOpen(stop, m, k);
    var n := Passed(stop, m, k);
    RekeyingSame(n, 0, m.id, 0);
    if a.Yes? {
      if k == 0 {
        SuccessReported(n, 0, stop.env, stop.back, m.id, m.id, 0);
      } else {
        SuccessPassedOn(n, 0, stop.env, stop.back, m.id, m.id, 0);
      }
    } else if k == 0 {
      FailureReported(n, 0, stop.env, stop.back, m.id, m.id, 0);
    } else {
      FailurePassedOn(n, 0, stop.env, stop.back, m.id, m.id, 0);
    }
  }

  lemma {:induction false} BackOne(wired: Wiring, path: seq<Stop>, m: Message, a: Answer, k: nat, i: nat) returns (r: Record)
    requires Way(wired, path, m) && k < |path| - 1
    ensures BidFor(path[k].env, m).Some?
    ensures var stop := path[k];
            && r.event == Arrival(stop.back, Says(a, m.id)) && r.cause == SentBy(i, 0)
            && r.before == Passed(stop, m, k) && r.env == stop.env
            && Sound(r.before, r.env, r.event) && Step(r.before, r.env, r.event) == Done(r.after, r.outs)
            && SentBack(wired, r, m, a, k) && Left(r.after, path, m, a, k)
  {
    hide Welcome;
    hide Kept;
    hide Deliver;
    hide Sound;
    hide Left;
    hide Passed;
    var stop := path[k];
    TakesAnswer(wired, path, m, a, k);
    var o := Deliver(Passed(stop, m, k), stop.env, stop.back, Says(a, m.id));
    r := Record(k, stop.env, Arrival(stop.back, Says(a, m.id)), SentBy(i, 0), Passed(stop, m, k), o.node, o.outs);
  }

  /** The answer has passed the places from the listener back to place k. */
  lemma {:induction false} Homeward(wired: Wiring, path: seq<Stop>, m: Message, a: Answer, k: nat) returns (history: seq<Record>)
    requires Answered(wired, path, m, a) && k < |path|
    ensures Legal(wired, history) && |history| == 2 * |path| - k
    ensures forall p: nat | p < k :: BidFor(path[p].env, m).Some? && StateOf(history, p) == Passed(path[p], m, p)
    ensures forall p: nat | k <= p < |path| :: Left(StateOf(history, p), path, m, a, p)
    ensures SentBack(wired, history[|history| - 1], m, a, k)
    ensures history[1].event == Arrival(path[0].from, m) && history[1].cause == Injected
    decreases |path| - k
  {
    hide Legal;
    hide Welcome;
    hide Unwelcome;
    hide Kept;
    hide Sound;
    hide Step;
    hide LeadsBack;
    hide Left;
    hide Passed;
    var front, r;
    if k == |path| - 1 {
      front := Outward(wired, path, m, k);
      r := Turn(wired, path, m, a);
    } else {
      front := Homeward(wired, path, m, a, k + 1);
      r := BackOne(wired, path, m, a, k, |front| - 1);
    }
    assert Received(wired, front + [r], |front|);
    Grow(wired, front, r);
    history := front + [r];
  }

  /** A request goes all the way over any number of relays, and its acceptance all the way back: there
      is a legal history in which it enters at its origin and, once every place has passed it on and
      the acceptance back, the origin reports success. Every place is left with a reserved entry that
      names the place the acceptance came from. */
  lemma {:induction false} Success(wired: Wiring, path: seq<Stop>, m: Message) returns (history: seq<Record>)
    requires Answered(wired, path, m, Yes)
    ensures Legal(wired, history) && |history| == 2 * |path|
    ensures history[1].event == Arrival(path[0].from, m) && history[1].cause == Injected
    ensures history[|history| - 1].place == 0 && history[|history| - 1].outs == [Report(true, m.id)]
    ensures forall p: nat | p < |path| :: Left(StateOf(history, p), path, m, Yes, p)
  {
    hide Way;
    hide Left;
    history := Homeward(wired, path, m, Yes, 0);
  }

  /** A request goes all the way over any number of relays to a listener that refuses it, and the
      refusal all the way back: the origin reports failure, and every place has closed. */
  lemma {:induction false} Failure(wired: Wiring, path: seq<Stop>, m: Message) returns (history: seq<Record>)
    requires Answered(wired, path, m, No)
    ensures Legal(wired, history) && |history| == 2 * |path|
    ensures history[1].event == Arrival(path[0].from, m) && history[1].cause == Injected
    ensures history[|history| - 1].place == 0 && history[|history| - 1].outs == [Report(false, m.id)]
    ensures forall p: nat | p < |path| :: Refused(StateOf(history, p), m)
  {
    hide Way;
    history := Homeward(wired, path, m, No, 0);
  }

  // ---- The release ----

  /** A release can follow the way of the acceptances: each place has a connection to the place that
      accepted, and the listener one to where the release comes from. */
  ghost predicate Releasing(wired: Wiring, path: seq<Stop>, m: Message)
  {
    && Answered(wired, path, m, Yes)
    && (forall i | 0 <= i < |path| - 1 ::
          var conns := path[i].env.conns(path[i].back); conns != [] && wired(i, conns[0].locator, i + 1))
    && path[|path| - 1].env.conns(path[|path| - 1].release) != []
  }

  /** What a place sends when it is told of the release. */
  ghost predicate Releases(path: seq<Stop>, m: Message, r: Record, k: nat)
  {
    && r.place == k && k < |path| && m.EAR? && |r.after.handlers| == 1
    && if k == |path| - 1 then
         var conns := path[k].env.conns(path[k].release);
         && r.after.handlers[0].state == Closed
         && conns != [] && r.outs == [Send(REF(m.id), conns[0].locator)]
       else
         var conns := path[k].env.conns(path[k].back);
         && r.after.handlers[0].state == Replenishing
         && conns != [] && r.outs == [Send(REP(m.id, m.listener), conns[0].locator)]
  }

  /** A place that the acceptance has passed takes the release. */
  lemma {:induction false} TakesRelease(wired: Wiring, path: seq<Stop>, m: Message, k: nat, cause: Cause) returns (r: Record)
    requires Releasing(wired, path, m) && k < |path| && BidFor(path[k].env, m).Some?
    ensures r.event == Arrival(path[k].release, REP(m.id, m.listener)) && r.cause == cause && r.env == path[k].env
    ensures r.before == Accepted(path, m, k) && Releases(path, m, r, k)
    ensures Sound(r.before, r.env, r.event) && Step(r.before, r.env, r.event) == Done(r.after, r.outs)
  {
    hide Kept;
    hide Deliver;
    hide Sound;
    hide LeadsBack;
    var stop, n, rep := path[k], Accepted(path, m, k), REP(m.id, m.listener);
    SoundArrival(n, stop.env, stop.release, rep);
    AcceptedIsOpen(wired, path, m, k);
    hide Welcome;
    if k == |path| - 1 {
      ReleaseArrives(n, 0, stop.env, stop.release, m.id, m.listener, m.id, 0);
    } else {
      ReleasePassedOn(n, 0, stop.env, stop.release, m.id, m.listener, m.id, 0);
    }
    var o := Deliver(n, stop.env, stop.release, rep);
    r := Record(k, stop.env, Arrival(stop.release, rep), cause, n, o.node, o.outs);
  }

  lemma {:induction false} AcceptedIsOpen(wired: Wiring, path: seq<Stop>, m: Message, k: nat)
    requires Releasing(wired, path, m) && k < |path| && BidFor(path[k].env, m).Some?
    ensures var n := Accepted(path, m, k);
            && Open(n, 0, m.id, 0) && |n.handlers| == 1 && KeyFor(n, m.id, REP(m.id, m.listener)) == Some(m.id)
            && n.cells[0].res.listener == m.listener
            && (k < |path| - 1 ==> n.cells[0].res.next == [path[k].back])
  {
    hide Kept;
    hide LeadsBack;
    var stop := path[k];
    StartIsUnheard(m, k);
    if k == |path| - 1 {
      WithIsSole(Start(m, k), m, stop.from, Reserved, EntryFor(m, BidFor(stop.env, m).value, L.Reserved, None), 1);
    } else {
      PassedIsOpen(stop, m, k);
      TakenIsSole(Passed(stop, m, k), 0, m.id, 0, stop.back);
      assert [] + [stop.back] == [stop.back];
    }
  }

  /** The release has passed the first k places, from the origin on. */
  lemma {:induction false} Released(wired: Wiring, path: seq<Stop>, m: Message, k: nat) returns (history: seq<Record>)
    requires Releasing(wired, path, m) && k <= |path|
    ensures Legal(wired, history) && |history| == 2 * |path| + k
    ensures forall p: nat | k <= p < |path| :: Left(StateOf(history, p), path, m, Yes, p)
    ensures forall i | 2 * |path| <= i < |history| :: Releases(path, m, history[i], i - 2 * |path|)
    ensures history[2 * |path| - 1].outs == [Report(true, m.id)]
  {
    hide Legal;
    hide Way;
    hide Sound;
    hide Step;
    hide Accepted;
    if k == 0 {
      history := Success(wired, path, m);
    } else {
      var front := Released(wired, path, m, k - 1);
      var cause := if k == 1 then Injected else SentBy(|front| - 1, 0);
      assert Left(StateOf(front, k - 1), path, m, Yes, k - 1);
      assert k > 1 ==> Releases(path, m, front[|front| - 1], k - 2);
      var r := TakesRelease(wired, path, m, k - 1, cause);
      assert Received(wired, front + [r], |front|);
      Grow(wired, front, r);
      history := front + [r];
    }
  }

  /** A session that was accepted is released over any number of relays: a REP at its origin is sent on
      by every place to the one that accepted, up to the listener, which closes and sends a REF back. */
  lemma {:induction false} Release(wired: Wiring, path: seq<Stop>, m: Message) returns (history: seq<Record>)
    requires Releasing(wired, path, m)
    ensures Legal(wired, history) && |history| == 3 * |path|
    ensures history[2 * |path| - 1].outs == [Report(true, m.id)]
    ensures forall i | 2 * |path| <= i < 3 * |path| :: Releases(path, m, history[i], i - 2 * |path|)
  {
    history := Released(wired, path, m, |path|);
  }
}
