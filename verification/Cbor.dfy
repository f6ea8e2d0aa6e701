/** JSON documents, as trees. */
module Json {
  import opened Basics

  /** Negative(k) is the number -1 - k. A double is its 64-bit pattern. */
  datatype Json =
    | Null | Bool(b: bool) | Number(n: nat) | Negative(k: nat) | Double(bits: nat)
    | Text(s: seq<Byte>) | Array(elems: seq<Json>) | Object(members: seq<Member>)

  datatype Member = Member(key: seq<Byte>, value: Json)
}

/** From a JSON tree to a stream of events, from the events to a tree of CBOR items with the stack
    builder, from the items to bytes (section 3 of RFC 8949) and all the way back. */
module Cbor {
  import opened Basics
  import opened Identifiers
  import opened Json

  datatype Item =
    | UInt(n: nat) | NegInt(n: nat) | Str(s: seq<Byte>) | List(items: seq<Item>) | Map(pairs: seq<Pair>)
    | Float(bits: nat) | Boolean(b: bool) | Nil

  datatype Pair = Pair(key: Item, value: Item)

  // ---- The event stream ----

  datatype Event =
    | OnUint64(n: nat) | OnNegint64(n: nat) | OnString(s: seq<Byte>) | OnArrayStart(size: nat) | OnMapStart(size: nat)
    | OnFloat8(bits: nat) | OnNull | OnBoolean(b: bool)

  /** The 64-bit pattern of -1 - k, which the walk hands over as it stands. */
  function Pattern(k: nat): nat
  {
    if k < WORD_BOUND then WORD_BOUND - 1 - k else 0
  }

  function Stream(j: Json): seq<Event>
    decreases j
  {
    match j
    case Null => [OnNull]
    case Bool(b) => [OnBoolean(b)]
    case Number(n) => [OnUint64(n)]
    case Negative(k) => [OnNegint64(Pattern(k))]
    case Double(bits) => [OnFloat8(bits)]
    case Text(s) => [OnString(s)]
    case Array(elems) => [OnArrayStart(|elems|)] + StreamAll(elems)
    case Object(members) => [OnMapStart(|members|)] + StreamMembers(members)
  }

  function StreamAll(elems: seq<Json>): seq<Event>
    decreases elems
  {
    if elems == [] then [] else StreamAll(elems[..|elems| - 1]) + Stream(elems[|elems| - 1])
  }

  function StreamMembers(members: seq<Member>): seq<Event>
    decreases members
  {
    if members == [] then []
    else
      var last := members[|members| - 1];
      StreamMembers(members[..|members| - 1]) + [OnString(last.key)] + Stream(last.value)
  }

  /** cbor_stream_decode: the walk that emits the events. */
  method Emit(j: Json, events: seq<Event>) returns (out: seq<Event>)
    ensures out == events + Stream(j)
    decreases j
  {
    match j
    case Null => out := events + [OnNull];
    case Bool(b) => out := events + [OnBoolean(b)];
    case Number(n) => out := events + [OnUint64(n)];
    case Negative(k) => out := events + [OnNegint64(Pattern(k))];
    case Double(bits) => out := events + [OnFloat8(bits)];
    case Text(s) => out := events + [OnString(s)];
    case Array(elems) =>
      out := events + [OnArrayStart(|elems|)];
      for i := 0 to |elems|
        invariant out == events + [OnArrayStart(|elems|)] + StreamAll(elems[..i])
      {
        assert elems[..i + 1][..i] == elems[..i];
        out := Emit(elems[i], out);
      }
      assert elems[..|elems|] == elems;
    case Object(members) =>
      out := events + [OnMapStart(|members|)];
      for i := 0 to |members|
        invariant out == events + [OnMapStart(|members|)] + StreamMembers(members[..i])
      {
        assert members[..i + 1][..i] == members[..i];
        out := out + [OnString(members[i].key)];
        out := Emit(members[i].value, out);
      }
      assert members[..|members|] == members;
  }

  // ---- The stack builder ----

  datatype Frame = ListFrame(size: nat, items: seq<Item>) | MapFrame(size: nat, pairs: seq<Pair>, key: Option<Item>)

  datatype Context = Context(stack: seq<Frame>, root: Option<Item>)

  const EMPTY_CONTEXT := Context([], None)

  /** An item goes into the innermost open container; a container that is full goes on in turn. */
  function Append(c: Context, item: Item): Context
    decreases |c.stack|
  {
    if c.stack == [] then c.(root := Some(item))
    else
      var outer, top := c.(stack := c.stack[..|c.stack| - 1]), c.stack[|c.stack| - 1];
      match top
      case ListFrame(size, items) =>
        if |items| + 1 == size then Append(outer, List(items + [item]))
        else c.(stack := outer.stack + [ListFrame(size, items + [item])])
      case MapFrame(size, pairs, None) => c.(stack := outer.stack + [MapFrame(size, pairs, Some(item))])
      case MapFrame(size, pairs, Some(key)) =>
        if |pairs| + 1 == size then Append(outer, Map(pairs + [Pair(key, item)]))
        else c.(stack := outer.stack + [MapFrame(size, pairs + [Pair(key, item)], None)])
  }

  function On(c: Context, e: Event): Context
  {
    match e
    case OnUint64(n) => Append(c, UInt(n))
    case OnNegint64(n) => Append(c, NegInt(n))
    case OnString(s) => Append(c, Str(s))
    case OnFloat8(bits) => Append(c, Float(bits))
    case OnNull => Append(c, Nil)
    case OnBoolean(b) => Append(c, Boolean(b))
    case OnArrayStart(size) => if size == 0 then Append(c, List([])) else c.(stack := c.stack + [ListFrame(size, [])])
    case OnMapStart(size) => if size == 0 then Append(c, Map([])) else c.(stack := c.stack + [MapFrame(size, [], None)])
  }

  function Feed(c: Context, events: seq<Event>): Context
  {
    if events == [] then c else On(Feed(c, events[..|events| - 1]), events[|events| - 1])
  }

  lemma {:induction false} FeedConcat(c: Context, a: seq<Event>, b: seq<Event>)
    ensures Feed(c, a + b) == Feed(Feed(c, a), b)
  {
    if b == [] {
      assert a + b == a;
    } else {
      var front := b[..|b| - 1];
      FeedConcat(c, a, front);
      assert (a + b)[..|a + b| - 1] == a + front;
    }
  }

  lemma {:induction false} FeedOne(c: Context, e: Event)
    ensures Feed(c, [e]) == On(c, e)
  {
    assert [e][..0] == [];
  }

  lemma FeedNothing()
    ensures forall c: Context :: Feed(c, []) == c
  {
  }

  /** The item tree of a JSON tree. */
  function ItemOf(j: Json): Item
    decreases j
  {
    match j
    case Null => Nil
    case Bool(b) => Boolean(b)
    case Number(n) => UInt(n)
    case Negative(k) => NegInt(Pattern(k))
    case Double(bits) => Float(bits)
    case Text(s) => Str(s)
    case Array(elems) => List(ItemsOf(elems))
    case Object(members) => Map(PairsOf(members))
  }

  function ItemsOf(elems: seq<Json>): (items: seq<Item>)
    ensures |items| == |elems|
    decreases elems
  {
    if elems == [] then [] else ItemsOf(elems[..|elems| - 1]) + [ItemOf(elems[|elems| - 1])]
  }

  function PairsOf(members: seq<Member>): (pairs: seq<Pair>)
    ensures |pairs| == |members|
    decreases members
  {
    if members == [] then []
    else
      var last := members[|members| - 1];
      PairsOf(members[..|members| - 1]) + [Pair(Str(last.key), ItemOf(last.value))]
  }

  /** Feeding a tree's events to the builder, whatever is open, appends the tree's item. */
  lemma {:induction false} StreamBuilds(j: Json, c: Context)
    ensures Feed(c, Stream(j)) == Append(c, ItemOf(j))
    decreases j, 0
  {
    hide Append;
    hide Feed;
    FeedNothing();
    match j
    case Null => FeedOne(c, OnNull);
    case Bool(b) => FeedOne(c, OnBoolean(b));
    case Number(n) => FeedOne(c, OnUint64(n));
    case Negative(k) => FeedOne(c, OnNegint64(Pattern(k)));
    case Double(bits) => FeedOne(c, OnFloat8(bits));
    case Text(s) => FeedOne(c, OnString(s));
    case Array(elems) =>
      FeedConcat(c, [OnArrayStart(|elems|)], StreamAll(elems));
      FeedOne(c, OnArrayStart(|elems|));
      if elems != [] {
        ListBuilds(elems, c, |elems|);
        assert elems[..|elems|] == elems;
      }
    case Object(members) =>
      FeedConcat(c, [OnMapStart(|members|)], StreamMembers(members));
      FeedOne(c, OnMapStart(|members|));
      if members != [] {
        MapBuilds(members, c, |members|);
        assert members[..|members|] == members;
      }
  }

  lemma {:induction false} ListBuilds(elems: seq<Json>, c: Context, k: nat)
    requires k <= |elems| && elems != []
    ensures Feed(c.(stack := c.stack + [ListFrame(|elems|, [])]), StreamAll(elems[..k]))
         == if k == |elems| then Append(c, List(ItemsOf(elems)))
            else c.(stack := c.stack + [ListFrame(|elems|, ItemsOf(elems[..k]))])
    decreases elems, k
  {
    if k > 0 {
      ListBuilds(elems, c, k - 1);
      assert elems[..k][..k - 1] == elems[..k - 1];
      assert k == |elems| ==> elems[..k] == elems;
      var start := c.(stack := c.stack + [ListFrame(|elems|, [])]);
      var now := c.(stack := c.stack + [ListFrame(|elems|, ItemsOf(elems[..k - 1]))]);
      FeedConcat(start, StreamAll(elems[..k - 1]), Stream(elems[k - 1]));
      StreamBuilds(elems[k - 1], now);
      assert now.stack[..|now.stack| - 1] == c.stack;
    }
  }

  lemma {:induction false} KeyGoesIn(c: Context, size: nat, pairs: seq<Pair>, key: Item)
    ensures Append(c.(stack := c.stack + [MapFrame(size, pairs, None)]), key)
         == c.(stack := c.stack + [MapFrame(size, pairs, Some(key))])
  {
    assert (c.stack + [MapFrame(size, pairs, None)])[..|c.stack|] == c.stack;
  }

  lemma {:induction false} ValueGoesIn(c: Context, size: nat, pairs: seq<Pair>, key: Item, value: Item)
    ensures Append(c.(stack := c.stack + [MapFrame(size, pairs, Some(key))]), value)
         == if |pairs| + 1 == size then Append(c, Map(pairs + [Pair(key, value)]))
            else c.(stack := c.stack + [MapFrame(size, pairs + [Pair(key, value)], None)])
  {
    assert (c.stack + [MapFrame(size, pairs, Some(key))])[..|c.stack|] == c.stack;
  }

  lemma {:induction false} MapBuilds(members: seq<Member>, c: Context, k: nat)
    requires k <= |members| && members != []
    ensures Feed(c.(stack := c.stack + [MapFrame(|members|, [], None)]), StreamMembers(members[..k]))
         == if k == |members| then Append(c, Map(PairsOf(members)))
            else c.(stack := c.stack + [MapFrame(|members|, PairsOf(members[..k]), None)])
    decreases members, k
  {
    hide Append;
    hide Feed;
    FeedNothing();
    if k > 0 {
      MapBuilds(members, c, k - 1);
      var last, front := members[k - 1], members[..k - 1];
      assert members[..k][..k - 1] == front;
      assert k == |members| ==> members[..k] == members;
      var start := c.(stack := c.stack + [MapFrame(|members|, [], None)]);
      var now := c.(stack := c.stack + [MapFrame(|members|, PairsOf(front), None)]);
      var keyed := c.(stack := c.stack + [MapFrame(|members|, PairsOf(front), Some(Str(last.key)))]);
      FeedConcat(start, StreamMembers(front), [OnString(last.key)]);
      FeedConcat(start, StreamMembers(front) + [OnString(last.key)], Stream(last.value));
      FeedOne(now, OnString(last.key));
      KeyGoesIn(c, |members|, PairsOf(front), Str(last.key));
      StreamBuilds(last.value, keyed);
      ValueGoesIn(c, |members|, PairsOf(front), Str(last.key), ItemOf(last.value));
    }
  }

  /** The preorder stream of a tree rebuilds to the tree's item, with nothing left open. */
  lemma {:induction false} StreamRebuilds(j: Json)
    ensures Feed(EMPTY_CONTEXT, Stream(j)) == Context([], Some(ItemOf(j)))
  {
    StreamBuilds(j, EMPTY_CONTEXT);
  }

  // ---- From items back to JSON ----

  function Ascii(s: string): (bytes: seq<Byte>)
    ensures |bytes| == |s|
  {
    seq(|s|, i requires 0 <= i < |s| => s[i] as int % 256)
  }

  /** What every string leaf is loaded as. */
  const CHUNKED := Ascii("Unimplemented feature (Chunked string).")

  /** A key passes through a null-terminated string. */
  function CString(s: seq<Byte>): seq<Byte>
  {
    if s == [] || s[0] == 0 then [] else [s[0]] + CString(s[1..])
  }

  function KeyOf(key: Item): seq<Byte>
  {
    if key.Str? then CString(key.s) else []
  }

  function JsonOf(item: Item): Json
    decreases item
  {
    match item
    case UInt(n) => Number(n)
    case NegInt(n) => Number(Pattern(n))
    case Str(_) => Text(CHUNKED)
    case List(items) => Array(JsonsOf(items))
    case Map(pairs) => Object(MembersOf(pairs))
    case Float(bits) => Double(bits)
    case Boolean(b) => Bool(b)
    case Nil => Null
  }

  function JsonsOf(items: seq<Item>): seq<Json>
    decreases items
  {
    if items == [] then [] else JsonsOf(items[..|items| - 1]) + [JsonOf(items[|items| - 1])]
  }

  function MembersOf(pairs: seq<Pair>): seq<Member>
    decreases pairs
  {
    if pairs == [] then [] else MembersOf(pairs[..|pairs| - 1]) + [MemberOf(pairs[|pairs| - 1])]
  }

  function MemberOf(pair: Pair): Member
    decreases pair
  {
    Member(KeyOf(pair.key), JsonOf(pair.value))
  }

  /** load_cbor_to_decode */
  method Load(item: Item) returns (j: Json)
    ensures j == JsonOf(item)
    decreases item
  {
    match item
    case UInt(n) => return Number(n);
    case NegInt(n) => return Number(Pattern(n));
    case Str(_) => return Text(CHUNKED);
    case List(items) =>
      var elems := [];
      for i := 0 to |items|
        invariant elems == JsonsOf(items[..i])
      {
        assert items[..i + 1][..i] == items[..i];
        var e := Load(items[i]);
        elems := elems + [e];
      }
      assert items[..|items|] == items;
      return Array(elems);
    case Map(pairs) =>
      var members := [];
      for i := 0 to |pairs|
        invariant members == MembersOf(pairs[..i])
      {
        assert pairs[..i + 1][..i] == pairs[..i];
        var value := Load(pairs[i].value);
        members := members + [Member(KeyOf(pairs[i].key), value)];
      }
      assert pairs[..|pairs|] == pairs;
      return Object(members);
    case Float(bits) => return Double(bits);
    case Boolean(b) => return Bool(b);
    case Nil => return Null;
  }

  // ---- What survives the trip ----

  /** A tree with string leaves replaced, negative numbers turned into their complement and keys cut
      at their first null byte. */
  function Garbled(j: Json): Json
    decreases j
  {
    match j
    case Negative(k) => Number(Pattern(Pattern(k)))
    case Text(_) => Text(CHUNKED)
    case Array(elems) => Array(GarbledAll(elems))
    case Object(members) => Object(GarbledMembers(members))
    case _ => j
  }

  function GarbledAll(elems: seq<Json>): (out: seq<Json>)
    ensures |out| == |elems|
    decreases elems
  {
    if elems == [] then [] else GarbledAll(elems[..|elems| - 1]) + [Garbled(elems[|elems| - 1])]
  }

  function GarbledMembers(members: seq<Member>): (out: seq<Member>)
    ensures |out| == |members|
    decreases members
  {
    if members == [] then []
    else
      var last := members[|members| - 1];
      GarbledMembers(members[..|members| - 1]) + [Member(CString(last.key), Garbled(last.value))]
  }

  lemma {:induction false} TreeTrip(j: Json)
    ensures JsonOf(ItemOf(j)) == Garbled(j)
    decreases j
  {
    match j
    case Array(elems) => ListTrip(elems);
    case Object(members) => MapTrip(members);
    case _ =>
  }

  lemma {:induction false} ListTrip(elems: seq<Json>)
    ensures JsonsOf(ItemsOf(elems)) == GarbledAll(elems)
    decreases elems
  {
    if elems != [] {
      var front, last := elems[..|elems| - 1], elems[|elems| - 1];
      ListTrip(front);
      TreeTrip(last);
      assert ItemsOf(elems)[..|front|] == ItemsOf(front);
    }
  }

  lemma {:induction false} MapTrip(members: seq<Member>)
    ensures MembersOf(PairsOf(members)) == GarbledMembers(members)
    decreases members
  {
    if members != [] {
      var front, last := members[..|members| - 1], members[|members| - 1];
      MapTrip(front);
      TreeTrip(last.value);
      assert PairsOf(members)[..|front|] == PairsOf(front);
    }
  }

  /** No negative number, no string leaf (but the one text they all turn into) and no null byte in a
      key. */
  predicate Faithful(j: Json)
    decreases j
  {
    match j
    case Negative(_) => false
    case Text(s) => s == CHUNKED
    case Array(elems) => forall i | 0 <= i < |elems| :: Faithful(elems[i])
    case Object(members) => forall i | 0 <= i < |members| :: 0 !in members[i].key && Faithful(members[i].value)
    case _ => true
  }

  lemma {:induction false} CStringIs(s: seq<Byte>)
    ensures CString(s) == s <==> 0 !in s
    ensures |CString(s)| <= |s|
  {
    if s != [] {
      CStringIs(s[1..]);
      assert s == [s[0]] + s[1..];
      if s[0] != 0 && CString(s) == s {
        assert CString(s)[1..] == CString(s[1..]);
      }
    }
  }

  lemma {:induction false} GarbledAt(elems: seq<Json>, i: nat)
    requires i < |elems|
    ensures GarbledAll(elems)[i] == Garbled(elems[i])
  {
    if i < |elems| - 1 {
      GarbledAt(elems[..|elems| - 1], i);
    }
  }

  lemma {:induction false} GarbledMemberAt(members: seq<Member>, i: nat)
    requires i < |members|
    ensures GarbledMembers(members)[i] == Member(CString(members[i].key), Garbled(members[i].value))
  {
    if i < |members| - 1 {
      GarbledMemberAt(members[..|members| - 1], i);
    }
  }

  lemma {:induction false} GarbledExactly(j: Json)
    ensures Garbled(j) == j <==> Faithful(j)
    decreases j
  {
    match j
    case Array(elems) =>
      forall i | 0 <= i < |elems|
        ensures GarbledAll(elems)[i] == Garbled(elems[i]) && (Garbled(elems[i]) == elems[i] <==> Faithful(elems[i]))
      {
        GarbledAt(elems, i);
        GarbledExactly(elems[i]);
      }
      assert GarbledAll(elems) == elems <==> forall i | 0 <= i < |elems| :: GarbledAll(elems)[i] == elems[i];
    case Object(members) =>
      forall i | 0 <= i < |members|
        ensures GarbledMembers(members)[i] == members[i] <==> 0 !in members[i].key && Faithful(members[i].value)
      {
        GarbledMemberAt(members, i);
        GarbledExactly(members[i].value);
        CStringIs(members[i].key);
      }
      assert GarbledMembers(members) == members <==> forall i | 0 <= i < |members| :: GarbledMembers(members)[i] == members[i];
    case _ =>
  }

  /** A JSON tree comes back from its item tree as it was exactly when it is faithful. */
  lemma {:induction false} TreeTripExactly(j: Json)
    ensures JsonOf(ItemOf(j)) == j <==> Faithful(j)
  {
    TreeTrip(j);
    GarbledExactly(j);
  }
}
