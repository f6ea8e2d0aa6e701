/** Requested capabilities: typed items, each at a one-byte place that gives its order. */
module Capabilities {
  import opened Basics

  datatype Kind =
    | Unspecified
    | Time | TimeTas | TimeCbs
    | Net | NetBandwidth | NetDds
    | Comp | CompCpu | CompMemory

  datatype Item = Item(kind: Kind, value: Option<nat>)

  /** `items` is the ordered map of RequestingCapabilities; `kinds` are the keys of its base map. */
  datatype Caps = Caps(items: map<Byte, Item>, kinds: set<Kind>)

  const NO_CAPS := Caps(map[], {})

  /** add_item: an occupied place keeps its item, the kind is recorded either way. */
  function AddItem(caps: Caps, item: Item, place: Byte): Caps
  {
    Caps(if place in caps.items then caps.items else caps.items[place := item], caps.kinds + {item.kind})
  }

  /** The items from place k on, in the order the map is walked. */
  function ItemsFrom(caps: Caps, k: nat): (s: seq<Item>)
    decreases 256 - k
  {
    if k >= 256 then []
    else (if k in caps.items then [caps.items[k]] else []) + ItemsFrom(caps, k + 1)
  }

  function Ordered(caps: Caps): seq<Item>
  {
    ItemsFrom(caps, 0)
  }

  /** Capabilities::operator==: as many kinds on both sides, and every kind of the left one that the
      switch knows also on the right. */
  predicate SameKinds(left: Caps, right: Caps)
  {
    |left.kinds| == |right.kinds| && forall k <- left.kinds :: k in {Time, Net, Comp} || k in right.kinds
  }
}

/** Resources: the assessments that decide whether a request can be performed, and its bid. */
module Assessment {
  import opened Basics
  import opened Capabilities

  const MAX_PRIORITY := 8
  // RANK_CURRENT_RESOURCES_EVAL_THRESHOLD is the integer division 2/3.
  const EVALUATION_WEIGHT: real := (2 / 3) as real
  const PDV_THRESHOLD := 30.0
  const PDV_TOLERANCE := 0.3
  const LOSS_THRESHOLD := 10.0

  type Metric = r: real | 0.0 <= r

  /** What the data sources report at the moment of the call. The round-trip score is the value of a
      curve with a real exponent and is taken as given. */
  datatype Sensors = Sensors(
    bareCpu: nat, bareMemory: nat,
    cpu: real, memory: real,
    hops: Metric, roundTripScore: real, pdv: real, loss: Metric)

  ghost predicate Plausible(s: Sensors)
  {
    && 0.0 <= s.cpu <= 1.0 && 0.0 <= s.memory <= 1.0
    && 0.0 < s.roundTripScore <= 1.0
  }

  // ---- Bare-metal assessment ----

  predicate Fits(item: Item, s: Sensors)
  {
    && item.value.Some?
    && (item.kind == CompCpu ==> item.value.value < s.bareCpu)
    && (item.kind == CompMemory ==> item.value.value < s.bareMemory)
  }

  predicate BareMetal(caps: Caps, s: Sensors)
  {
    AllFit(Ordered(caps), s)
  }

  predicate AllFit(items: seq<Item>, s: Sensors)
  {
    forall i | 0 <= i < |items| :: Fits(items[i], s)
  }

  method BareMetalAssessment(caps: Caps, s: Sensors) returns (score: real)
    ensures score == if BareMetal(caps, s) then 1.0 else 0.0
  {
    var items := Ordered(caps);
    for i := 0 to |items|
      invariant forall j | 0 <= j < i :: Fits(items[j], s)
    {
      var item := items[i];
      if !item.value.Some? {
        return 0.0;
      }
      if item.kind == CompCpu && item.value.value >= s.bareCpu {
        return 0.0;
      }
      if item.kind == CompMemory && item.value.value >= s.bareMemory {
        return 0.0;
      }
    }
    return 1.0;
  }

  // ---- Current-resource assessment ----

  predicate Scored(item: Item)
  {
    item.kind == CompCpu || item.kind == CompMemory
  }

  function Score(item: Item, s: Sensors): real
  {
    if item.kind == CompCpu then s.cpu else s.memory
  }

  /** The scores of the CPU and memory items, in order. */
  function Scores(items: seq<Item>, s: Sensors): (r: seq<real>)
  {
    if items == [] then []
    else
      var last := items[|items| - 1];
      Scores(items[..|items| - 1], s) + if Scored(last) then [Score(last, s)] else []
  }

  /** The weighted mean, folding from the front. */
  function Alpha(w: real, xs: seq<real>): (a: real)
    requires xs != []
  {
    if |xs| == 1 then xs[0] else w * xs[0] + (1.0 - w) * Alpha(w, xs[1..])
  }

  predicate Present(item: Item, s: Sensors)
  {
    item.value.Some? && (Scored(item) ==> Score(item, s) != 0.0)
  }

  predicate AllPresent(items: seq<Item>, s: Sensors)
  {
    forall i | 0 <= i < |items| :: Present(items[i], s)
  }

  function Current(caps: Caps, s: Sensors): real
  {
    var items := Ordered(caps);
    if AllPresent(items, s) && Scores(items, s) != []
    then Alpha(EVALUATION_WEIGHT, Scores(items, s))
    else 0.0
  }

  /** The loop of current_resource_assessment: it stops at a missing value or a zero score. */
  method CollectScores(items: seq<Item>, s: Sensors) returns (complete: bool, scores: seq<real>)
    ensures complete <==> AllPresent(items, s)
    ensures complete ==> scores == Scores(items, s)
  {
    scores := [];
    for i := 0 to |items|
      invariant forall j | 0 <= j < i :: Present(items[j], s)
      invariant scores == Scores(items[..i], s)
    {
      var item := items[i];
      assert items[..i + 1][..i] == items[..i];
      if !item.value.Some? {
        return false, scores;
      }
      if item.kind == CompCpu {
        if s.cpu == 0.0 {
          return false, scores;
        }
        scores := scores + [s.cpu];
      } else if item.kind == CompMemory {
        if s.memory == 0.0 {
          return false, scores;
        }
        scores := scores + [s.memory];
      }
    }
    assert items[..|items|] == items;
    return true, scores;
  }

  method CurrentAssessment(caps: Caps, s: Sensors) returns (score: real)
    ensures score == Current(caps, s)
  {
    var complete, scores := CollectScores(Ordered(caps), s);
    if !complete || scores == [] {
      return 0.0;
    }
    return Alpha(EVALUATION_WEIGHT, scores);
  }

  /** For any weight in [0,1] the mean stays between any bounds of the assessments. */
  lemma {:induction false} AlphaWithin(w: real, xs: seq<real>, low: real, high: real)
    requires xs != [] && 0.0 <= w <= 1.0
    requires forall i | 0 <= i < |xs| :: low <= xs[i] <= high
    ensures low <= Alpha(w, xs) <= high
  {
    if |xs| > 1 {
      var rest := Alpha(w, xs[1..]);
      AlphaWithin(w, xs[1..], low, high);
      var first := xs[0];
      assert low <= first <= high;
      Between(w, first, rest, low, high);
    }
  }

  lemma Between(w: real, a: real, b: real, low: real, high: real)
    requires 0.0 <= w <= 1.0 && low <= a <= high && low <= b <= high
    ensures low <= w * a + (1.0 - w) * b <= high
  {
    Weighted(w, 1.0 - w, a, b, low, high);
  }

  lemma Weighted(w: real, v: real, a: real, b: real, low: real, high: real)
    requires 0.0 <= w && 0.0 <= v && w + v == 1.0 && low <= a <= high && low <= b <= high
    ensures low <= w * a + v * b <= high
  {
    var x, y := a - low, b - low;
    var x', y' := high - a, high - b;
    NonNegative(w, x);
    NonNegative(v, y);
    NonNegative(w, x');
    NonNegative(v, y');
    assert w * a + v * b == (w + v) * low + w * x + v * y;
    assert w * a + v * b == (w + v) * high - w * x' - v * y';
  }

  lemma NonNegative(w: real, x: real)
    requires 0.0 <= w && 0.0 <= x
    ensures 0.0 <= w * x
  {
  }

  lemma Monotone(w: real, a: real, b: real)
    requires 0.0 <= w && a <= b
    ensures w * a <= w * b
  {
  }

  /** At the weight the code compiles to, the mean is the last assessment alone. */
  lemma {:induction false} AlphaIsLast(xs: seq<real>)
    requires xs != []
    ensures Alpha(EVALUATION_WEIGHT, xs) == xs[|xs| - 1]
  {
    AlphaWithoutWeight(EVALUATION_WEIGHT, xs);
  }

  lemma {:induction false} AlphaWithoutWeight(w: real, xs: seq<real>)
    requires xs != [] && w == 0.0
    ensures Alpha(w, xs) == xs[|xs| - 1]
  {
    if |xs| > 1 {
      AlphaWithoutWeight(w, xs[1..]);
      assert w * xs[0] == 0.0;
    }
  }

  // ---- Proximity and the bid ----

  /** 2 to the power -k. */
  function Halved(k: nat): (h: real)
    ensures 0.0 < h <= 1.0
  {
    if k == 0 then 1.0 else Halved(k - 1) / 2.0
  }

  function HopScore(s: Sensors): real
  {
    Halved(s.hops.Floor)
  }

  function PdvScore(s: Sensors): real
  {
    if s.pdv <= PDV_THRESHOLD then 1.0
    else if s.pdv > PDV_THRESHOLD + PDV_THRESHOLD * PDV_TOLERANCE then 0.0
    else -(s.pdv - PDV_THRESHOLD) / (PDV_THRESHOLD + PDV_THRESHOLD * PDV_TOLERANCE) + 1.0
  }

  function LossScore(s: Sensors): real
  {
    if s.loss > LOSS_THRESHOLD then 0.0 else -0.75 / LOSS_THRESHOLD * s.loss + 1.0
  }

  function Proximity(s: Sensors): real
  {
    (HopScore(s) + s.roundTripScore + PdvScore(s) + LossScore(s)) / 4.0
  }

  lemma ProximityWithin(s: Sensors)
    requires Plausible(s)
    ensures 0.0 < Proximity(s) <= 1.0
  {
    assert 0.0 <= PdvScore(s) <= 1.0;
    assert 0.0 <= LossScore(s) <= 1.0;
  }

  function Product(node: real, proximity: real, current: real, priority: nat): real
  {
    var fairness := priority as real / MAX_PRIORITY as real;
    node * (proximity + 1.0) / 2.0 * current * (fairness / MAX_PRIORITY as real)
  }

  /** Resources::estimate_bid; the historical assessment is the constant 1. */
  function Estimate(caps: Caps, priority: nat, s: Sensors): real
  {
    Product(if BareMetal(caps, s) then 1.0 else 0.0, Proximity(s), Current(caps, s), priority)
  }

  /** The outcome of the two assessments of available_for_performance. */
  function Bid(caps: Caps, priority: nat, s: Sensors): Option<real>
  {
    if BareMetal(caps, s) then Some(Estimate(caps, priority, s)) else None
  }

  lemma ScaledWithin(a: real, b: real)
    requires 0.0 <= a <= 1.0 && 0.0 <= b
    ensures 0.0 <= a * b <= b
  {
    Monotone(b, 0.0, a);
    Monotone(b, a, 1.0);
    assert b * a == a * b && b * 0.0 == 0.0 && b * 1.0 == b;
  }

  lemma ProductWithin(node: real, proximity: real, current: real, priority: nat)
    requires node == 0.0 || node == 1.0
    requires 0.0 <= proximity <= 1.0 && 0.0 <= current <= 1.0
    ensures 0.0 <= Product(node, proximity, current, priority) <= priority as real / 64.0
  {
    hide Product;
    hide Times;
    var near, share := Factors(node, proximity, current, priority);
    ScaledTwice(near, current, share);
  }

  function Times(a: real, b: real, c: real): real
  {
    a * b * c
  }

  lemma Factors(node: real, proximity: real, current: real, priority: nat) returns (near: real, share: real)
    requires (node == 0.0 || node == 1.0) && 0.0 <= proximity <= 1.0
    ensures 0.0 <= near <= 1.0 && share == priority as real / 64.0
    ensures Product(node, proximity, current, priority) == Times(near, current, share)
  {
    near, share := node * (proximity + 1.0) / 2.0, priority as real / 8.0 / 8.0;
    assert node == 0.0 ==> node * (proximity + 1.0) == 0.0;
    assert node == 1.0 ==> node * (proximity + 1.0) == proximity + 1.0;
  }

  lemma ScaledTwice(a: real, b: real, c: real)
    requires 0.0 <= a <= 1.0 && 0.0 <= b <= 1.0 && 0.0 <= c
    ensures 0.0 <= Times(a, b, c) <= c
  {
    var ab := Bounded(a, b);
    ScaledWithin(ab, c);
  }

  lemma Bounded(a: real, b: real) returns (ab: real)
    requires 0.0 <= a <= 1.0 && 0.0 <= b <= 1.0
    ensures ab == a * b && 0.0 <= ab <= 1.0
  {
    ab := a * b;
    ScaledWithin(a, b);
  }

  lemma ProductVanishes(proximity: real, current: real, priority: nat)
    requires 0.0 <= proximity
    ensures Product(1.0, proximity, current, priority) == 0.0 <==> current == 0.0 || priority == 0
  {
    var near := 1.0 * (proximity + 1.0) / 2.0;
    var share := priority as real / 8.0 / 8.0;
    NonzeroProduct(near, current);
    NonzeroProduct(near * current, share);
  }

  lemma NonzeroProduct(a: real, b: real)
    ensures a * b == 0.0 <==> a == 0.0 || b == 0.0
  {
    if a != 0.0 && b != 0.0 {
      assert a * b / b == a;
    }
  }

  lemma {:induction false} ScoresWithin(items: seq<Item>, s: Sensors)
    requires Plausible(s)
    ensures forall i | 0 <= i < |Scores(items, s)| :: 0.0 <= Scores(items, s)[i] <= 1.0
  {
    if items != [] {
      ScoresWithin(items[..|items| - 1], s);
    }
  }

  lemma CurrentWithin(caps: Caps, s: Sensors)
    requires Plausible(s)
    ensures 0.0 <= Current(caps, s) <= 1.0
  {
    var scores := Scores(Ordered(caps), s);
    ScoresWithin(Ordered(caps), s);
    if scores != [] {
      AlphaWithin(EVALUATION_WEIGHT, scores, 0.0, 1.0);
    }
  }

  /** With assessments in [0,1] a bid never leaves [0, priority / 64]. */
  lemma BidWithin(caps: Caps, priority: nat, s: Sensors)
    requires Plausible(s)
    ensures 0.0 <= Estimate(caps, priority, s) <= priority as real / 64.0
  {
    ProximityWithin(s);
    CurrentWithin(caps, s);
    ProductWithin(if BareMetal(caps, s) then 1.0 else 0.0, Proximity(s), Current(caps, s), priority);
  }

  lemma {:induction false} ScoresPresent(items: seq<Item>, s: Sensors)
    requires AllPresent(items, s)
    ensures Scores(items, s) == [] <==> forall i | 0 <= i < |items| :: !Scored(items[i])
    ensures forall i | 0 <= i < |Scores(items, s)| :: Scores(items, s)[i] != 0.0
  {
    if items != [] {
      var front, last := items[..|items| - 1], items[|items| - 1];
      assert items == front + [last];
      ScoresPresent(front, s);
      assert Scores(items, s) == Scores(front, s) + if Scored(last) then [Score(last, s)] else [];
    }
  }

  lemma CurrentVanishes(caps: Caps, s: Sensors)
    requires AllFit(Ordered(caps), s)
    ensures Current(caps, s) != 0.0 <==>
            && (forall i | 0 <= i < |Ordered(caps)| :: Scored(Ordered(caps)[i]) ==> Score(Ordered(caps)[i], s) != 0.0)
            && (exists i | 0 <= i < |Ordered(caps)| :: Scored(Ordered(caps)[i]))
  {
    var items := Ordered(caps);
    if AllPresent(items, s) {
      ScoresPresent(items, s);
      if Scores(items, s) != [] {
        AlphaIsLast(Scores(items, s));
      }
    } else {
      var i :| 0 <= i < |items| && !Present(items[i], s);
      assert Fits(items[i], s);
    }
  }

  /** A request gets a nonzero bid exactly when every item has a value, every CPU or memory item asks
      for less than bare metal while its own sensor reports something free, at least one such item is
      present, and the priority is positive. */
  lemma AcceptedExactly(caps: Caps, priority: nat, s: Sensors)
    requires Plausible(s)
    ensures Bid(caps, priority, s).Some? && Bid(caps, priority, s).value != 0.0 <==>
            && (forall item <- Ordered(caps) :: item.value.Some?)
            && (forall item <- Ordered(caps) | item.kind == CompCpu ::
                  item.value.Some? && item.value.value < s.bareCpu && s.cpu != 0.0)
            && (forall item <- Ordered(caps) | item.kind == CompMemory ::
                  item.value.Some? && item.value.value < s.bareMemory && s.memory != 0.0)
            && (exists item <- Ordered(caps) :: item.kind == CompCpu || item.kind == CompMemory)
            && priority > 0
  {
    hide Proximity;
    hide Current;
    hide Product;
    hide Ordered;
    hide BareMetal;
    BareMetalEach(caps, s);
    if BareMetal(caps, s) {
      ProximityWithin(s);
      CurrentEach(caps, s);
      ProductVanishes(Proximity(s), Current(caps, s), priority);
    }
  }

  lemma BareMetalEach(caps: Caps, s: Sensors)
    ensures BareMetal(caps, s) <==> forall item <- Ordered(caps) :: Fits(item, s)
  {
    var items := Ordered(caps);
    assert forall i | 0 <= i < |items| :: items[i] in items;
  }

  lemma CurrentEach(caps: Caps, s: Sensors)
    requires BareMetal(caps, s)
    ensures Current(caps, s) != 0.0 <==>
            && (forall item <- Ordered(caps) | Scored(item) :: Score(item, s) != 0.0)
            && (exists item <- Ordered(caps) :: Scored(item))
  {
    hide Current;
    hide Ordered;
    var items := Ordered(caps);
    CurrentVanishes(caps, s);
    assert forall i | 0 <= i < |items| :: items[i] in items;
  }

  lemma {:induction false} SingleOrdered(caps: Caps, place: Byte, item: Item, k: nat)
    requires k <= 256 && caps.items == map[place := item]
    ensures ItemsFrom(caps, k) == if k <= place as nat then [item] else []
    decreases 256 - k
  {
    if k < 256 {
      SingleOrdered(caps, place, item, k + 1);
    }
  }

  /** What proximity and priority leave of what is free. */
  function Share(proximity: real, free: real, priority: nat): real
  {
    (proximity + 1.0) / 2.0 * free * (priority as real / 64.0)
  }

  /** What a single item is bid: the share of what its sensor has free, and nothing from bare metal on. */
  function SingleBid(value: nat, bare: nat, free: real, priority: nat, proximity: real): Option<real>
  {
    if value < bare then Some(Share(proximity, free, priority)) else None
  }

  /** A CPU item is bid for by the CPU's sensor and bare metal, a memory item by those of the memory. */
  lemma SingleItemBid(caps: Caps, place: Byte, item: Item, priority: nat, s: Sensors)
    requires caps.items == map[place := item] && item.value.Some?
    ensures item.kind == CompCpu ==>
              Bid(caps, priority, s) == SingleBid(item.value.value, s.bareCpu, s.cpu, priority, Proximity(s))
    ensures item.kind == CompMemory ==>
              Bid(caps, priority, s) == SingleBid(item.value.value, s.bareMemory, s.memory, priority, Proximity(s))
  {
    hide Bid;
    hide SingleBid;
    hide Proximity;
    SingleOrdered(caps, place, item, 0);
    if Scored(item) {
      BidAlone(caps, item, priority, s);
    }
  }

  lemma BidAlone(caps: Caps, item: Item, priority: nat, s: Sensors)
    requires Ordered(caps) == [item] && item.value.Some? && Scored(item)
    ensures Bid(caps, priority, s)
         == SingleBid(item.value.value, if item.kind == CompCpu then s.bareCpu else s.bareMemory,
                      Score(item, s), priority, Proximity(s))
  {
    hide Proximity;
    hide Estimate;
    hide Share;
    hide Ordered;
    assert BareMetal(caps, s) <==> Fits(item, s) by {
      assert Ordered(caps)[0] == item;
    }
    if BareMetal(caps, s) {
      SingleEstimate(caps, item, priority, s);
    }
  }

  lemma SingleEstimate(caps: Caps, item: Item, priority: nat, s: Sensors)
    requires Ordered(caps) == [item] && item.value.Some? && Scored(item) && BareMetal(caps, s)
    ensures Estimate(caps, priority, s) == Share(Proximity(s), Score(item, s), priority)
  {
    hide Proximity;
    hide Current;
    hide Product;
    hide Share;
    hide Ordered;
    hide BareMetal;
    SingleCurrent(caps, item, s);
    ProductAsShare(Proximity(s), Score(item, s), priority);
  }

  lemma ProductAsShare(proximity: real, current: real, priority: nat)
    ensures Product(1.0, proximity, current, priority) == Share(proximity, current, priority)
  {
    var share := priority as real / 8.0 / 8.0;
    assert share == priority as real / 64.0;
  }

  lemma SingleCurrent(caps: Caps, item: Item, s: Sensors)
    requires Ordered(caps) == [item] && item.value.Some? && Scored(item)
    ensures Current(caps, s) == Score(item, s)
  {
    var items := [item];
    assert items[..0] == [];
    assert Scores(items, s) == Scores(items[..0], s) + [Score(item, s)] == [Score(item, s)];
    assert AllPresent(items, s) <==> Present(items[0], s);
  }

  /** One further hop halves the share of the hops; a delay variation or a loss out of bounds costs a
      quarter of the whole, so each of the four measures has the same weight. */
  lemma ProximityShares(s: Sensors, hops: nat)
    requires s.hops == hops as real
    ensures Proximity(s.(hops := 0.0, roundTripScore := 1.0, pdv := 0.0, loss := 0.0)) == 1.0
    ensures Proximity(s) - Proximity(s.(hops := (hops + 1) as real)) == HopScore(s) / 8.0
    ensures forall score: real :: Proximity(s.(roundTripScore := score)) == Proximity(s) + (score - s.roundTripScore) / 4.0
    ensures Proximity(s.(pdv := 30.0)) - Proximity(s.(pdv := 39.1)) == 0.25
    ensures Proximity(s.(loss := 0.0)) - Proximity(s.(loss := 10.1)) == 0.25
  {
    assert Halved(hops + 1) == Halved(hops) / 2.0;
  }

  /** A node that is nearer in every respect is not valued less, and only one that loses nothing within
      a hop is valued best. */
  lemma NearerIsBetter(s: Sensors, t: Sensors)
    requires Plausible(s) && Plausible(t)
    requires s.hops <= t.hops && s.roundTripScore >= t.roundTripScore && s.pdv <= t.pdv && s.loss <= t.loss
    ensures Proximity(s) >= Proximity(t)
    ensures Proximity(s) == 1.0 <==> s.hops < 1.0 && s.roundTripScore == 1.0 && s.pdv <= 30.0 && s.loss == 0.0
  {
    FewerHops(s.hops.Floor, t.hops.Floor);
    FewerHops(1, if s.hops.Floor == 0 then 1 else s.hops.Floor);
    assert Halved(1) == 0.5;
    assert PdvScore(s) >= PdvScore(t);
    assert LossScore(s) >= LossScore(t);
    assert PdvScore(s) <= 1.0 && (PdvScore(s) == 1.0 <==> s.pdv <= 30.0);
    assert LossScore(s) <= 1.0 && (LossScore(s) == 1.0 <==> s.loss == 0.0);
  }

  lemma {:induction false} FewerHops(j: nat, k: nat)
    requires j <= k
    ensures Halved(j) >= Halved(k)
  {
    if j < k {
      FewerHops(j, k - 1);
    }
  }
}
