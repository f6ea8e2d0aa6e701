/** Requirements as JSON documents: written from capabilities, validated, and read back. */
module Requirements {
  import opened Basics
  import opened Json
  import Cap = Capabilities
  import opened Cbor
  import opened CborBytes
  import opened Protocol

  const REQUIREMENTS := Ascii("nap-rank-requirements:requirements")
  const ITEMS := Ascii("items")
  const ORDER := Ascii("order")
  const REQUIREMENT := Ascii("requirement")
  const CPU_CORES := Ascii("cpu_cores")
  const MEMORY := Ascii("memory")
  const INTERFACE := Ascii("interface")

  lemma Names()
    ensures forall s <- [REQUIREMENTS, ITEMS, ORDER, REQUIREMENT, CPU_CORES] :: 0 !in s && |s| < 100
    ensures ORDER != REQUIREMENT
  {
    assert |ORDER| == 5 && |REQUIREMENT| == 11;
  }

  // ---- Writing ----

  const UINT_BOUND := 0x1_0000_0000

  function ItemJson(place: Byte, item: Cap.Item): Json
  {
    Object([Member(ORDER, Number(place))] +
           if item.kind == Cap.CompCpu && item.value.Some?
           then [Member(REQUIREMENT, Object([Member(CPU_CORES, Number(item.value.value))]))] else [])
  }

  const FIRST: nat := 0

  /** The items at places from k on, in order. */
  function ItemsJson(caps: Cap.Caps, k: nat): (items: seq<Json>)
    ensures |items| <= if k < 256 then 256 - k else 0
    decreases 256 - k
  {
    if k >= 256 then []
    else (if k in caps.items then [ItemJson(k, caps.items[k])] else []) + ItemsJson(caps, k + 1)
  }

  function Document(items: seq<Json>): Json
  {
    Object([Member(REQUIREMENTS, Object([Member(ITEMS, Array(items))]))])
  }

  lemma ItemsJsonNext(caps: Cap.Caps, k: Byte, before: seq<Json>)
    ensures before + ItemsJson(caps, k)
         == before + (if k in caps.items then [ItemJson(k, caps.items[k])] else []) + ItemsJson(caps, k + 1)
  {
    hide ItemJson;
  }

  /** Every CPU item has its value, which the writer casts out of it. */
  ghost predicate Valued(caps: Cap.Caps)
  {
    forall k <- caps.items :: caps.items[k].kind == Cap.CompCpu ==> caps.items[k].value.Some?
  }

  /** transform_to_json; it throws, which is None, exactly at a CPU item without a value. */
  method TransformToJson(caps: Cap.Caps) returns (json: Option<Json>)
    ensures json.Some? <==> Valued(caps)
    ensures json.Some? ==> json.value == Document(ItemsJson(caps, FIRST))
  {
    hide ItemJson;
    hide ItemsJson;
    var items := [];
    for place := 0 to 256
      invariant items + ItemsJson(caps, place) == ItemsJson(caps, FIRST)
      invariant forall k <- caps.items | k < place :: caps.items[k].kind == Cap.CompCpu ==> caps.items[k].value.Some?
    {
      ItemsJsonNext(caps, place, items);
      if place in caps.items {
        if caps.items[place].kind == Cap.CompCpu && !caps.items[place].value.Some? {
          return None;
        }
        items := items + [ItemJson(place, caps.items[place])];
      }
    }
    NoItemsJson(caps, items);
    return Some(Document(items));
  }

  lemma {:induction false} NoItemsJson(caps: Cap.Caps, items: seq<Json>)
    ensures items + ItemsJson(caps, 256) == items
  {
  }

  // ---- Validating ----

  function Find(members: seq<Member>, key: Bytes): Option<Json>
  {
    if members == [] then None
    else if members[0].key == key then Some(members[0].value)
    else Find(members[1..], key)
  }

  function Get(j: Json, key: Bytes): Option<Json>
  {
    if j.Object? then Find(j.members, key) else None
  }

  /** An item at its place in the order, with a requirement of a known type. */
  predicate ItemValid(j: Json, expected: nat)
  {
    var order, requirement := Get(j, ORDER), Get(j, REQUIREMENT);
    && order.Some? && requirement.Some?
    && order.value == Number(expected) && expected < UINT_BOUND
    && requirement.value.Object? && requirement.value.members != []
    && requirement.value.members[0].key in [CPU_CORES, MEMORY, INTERFACE]
  }

  predicate ItemsValid(items: seq<Json>, expected: nat)
  {
    items == [] || (ItemValid(items[0], expected) && ItemsValid(items[1..], expected + 1))
  }

  function ItemsIn(json: Json): Option<seq<Json>>
  {
    if json.Object? && |json.members| == 1 && json.members[0].key == REQUIREMENTS
    then
      match Get(json.members[0].value, ITEMS)
      case Some(Array(items)) => Some(items)
      case _ => None
    else None
  }

  /** Whether the document passes the schema check, which is another library's. */
  type Schema = Json -> bool

  predicate Valid(json: Json, schema: Schema)
  {
    var items := ItemsIn(json);
    items.Some? && ItemsValid(items.value, 0) && (items.value != [] ==> schema(json))
  }

  lemma {:induction false} ItemsValidAt(items: seq<Json>, k: nat)
    ensures ItemsValid(items, k) <==> forall i | 0 <= i < |items| :: ItemValid(items[i], k + i)
  {
    hide ItemValid;
    if items != [] {
      ItemsValidAt(items[1..], k + 1);
      assert forall i | 1 <= i < |items| :: items[i] == items[1..][i - 1];
      assert forall i | 0 <= i < |items| - 1 :: items[1..][i] == items[i + 1];
      if ItemsValid(items, k) {
        forall i | 0 <= i < |items| ensures ItemValid(items[i], k + i) {
          if i > 0 {
            assert ItemValid(items[1..][i - 1], k + 1 + (i - 1));
          }
        }
      }
      if forall i | 0 <= i < |items| :: ItemValid(items[i], k + i) {
        forall i | 0 <= i < |items| - 1 ensures ItemValid(items[1..][i], k + 1 + i) {
          assert ItemValid(items[i + 1], k + (i + 1));
        }
        assert ItemValid(items[0], k + 0);
      }
    }
  }

  /** validate_yang: false where the code throws or an assertion fails. */
  method ValidateYang(json: Json, schema: Schema) returns (ok: bool)
    ensures ok == Valid(json, schema)
  {
    var items := ItemsIn(json);
    if !items.Some? {
      return false;
    }
    ItemsValidAt(items.value, 0);
    hide ItemValid;
    var expected := 0;
    for i := 0 to |items.value|
      invariant expected == i
      invariant forall j | 0 <= j < i :: ItemValid(items.value[j], 0 + j)
      invariant i > 0 ==> schema(json)
    {
      if !ItemValid(items.value[i], 0 + expected) {
        return false;
      }
      expected := expected + 1;
      if !schema(json) {
        return false;
      }
    }
    return true;
  }

  // ---- Reading ----

  /** A CPU item is added at its place; other known requirements are passed over. */
  function AddJson(caps: Cap.Caps, j: Json): Cap.Caps
  {
    match (Get(j, ORDER), Get(j, REQUIREMENT))
    case (Some(Number(order)), Some(Object(members))) =>
      if members != [] && members[0].key == CPU_CORES && members[0].value.Number?
      then Cap.AddItem(caps, Cap.Item(Cap.CompCpu, Some(members[0].value.n)), order % 256)
      else caps
    case _ => caps
  }

  function AddAll(caps: Cap.Caps, items: seq<Json>): Cap.Caps
    decreases |items|
  {
    if items == [] then caps else AddAll(AddJson(caps, items[0]), items[1..])
  }

  /** transform_to_requirements on the items of a valid document. */
  method TransformToRequirements(items: seq<Json>) returns (caps: Cap.Caps)
    ensures caps == AddAll(Cap.NO_CAPS, items)
  {
    caps := Cap.NO_CAPS;
    for i := 0 to |items|
      invariant AddAll(caps, items[i..]) == AddAll(Cap.NO_CAPS, items)
    {
      assert items[i..][1..] == items[i + 1..];
      caps := AddJson(caps, items[i]);
    }
  }

  /** unmarshal: None where it throws. */
  function Unmarshal(bytes: Bytes, schema: Schema): Option<Cap.Caps>
  {
    if bytes == [] then Some(Cap.NO_CAPS)
    else
      var json := Deserialize(bytes);
      if Valid(json, schema) then Some(AddAll(Cap.NO_CAPS, ItemsIn(json).value)) else None
  }

  /** The payload of a forwarded request. */
  function Marshal(caps: Cap.Caps): Bytes
  {
    Serialize(Document(ItemsJson(caps, FIRST)))
  }

  // ---- The round trip ----

  /** Capabilities as every add_item leaves them, with 32-bit values. */
  ghost predicate WellFormed(caps: Cap.Caps)
  {
    && (forall k <- caps.items :: caps.items[k].value.Some? && caps.items[k].value.value < UINT_BOUND)
    && (forall kind :: kind in caps.kinds <==> exists k <- caps.items :: caps.items[k].kind == kind)
  }

  lemma ItemJsonParts(place: Byte, item: Cap.Item)
    requires item.value.Some?
    ensures Get(ItemJson(place, item), ORDER) == Some(Number(place))
    ensures Get(ItemJson(place, item), REQUIREMENT)
         == if item.kind == Cap.CompCpu then Some(Object([Member(CPU_CORES, Number(item.value.value))])) else None
  {
    Names();
    hide ORDER;
    hide REQUIREMENT;
    hide CPU_CORES;
    var members := ItemJson(place, item).members;
    assert Find(members, ORDER) == Some(Number(place));
    assert Find(members, REQUIREMENT) == Find(members[1..], REQUIREMENT);
    if item.kind == Cap.CompCpu {
      assert members[1..][0] == Member(REQUIREMENT, Object([Member(CPU_CORES, Number(item.value.value))]));
    } else {
      assert members[1..] == [];
    }
  }

  lemma {:induction false} FirstItem(caps: Cap.Caps, k: nat)
    ensures var items := ItemsJson(caps, k);
            if items == [] then forall p <- caps.items :: p < k
            else exists p | p in caps.items :: p >= k && items[0] == ItemJson(p, caps.items[p])
    decreases 256 - k
  {
    hide ItemJson;
    if k < 256 {
      FirstItem(caps, k + 1);
    }
  }

  ghost predicate ConsecutiveFrom(caps: Cap.Caps, k: nat)
  {
    forall i <- caps.items | i >= k :: caps.items[i].kind == Cap.CompCpu && forall j: Byte | j < i :: j in caps.items
  }

  lemma ItemValidExactly(place: Byte, item: Cap.Item, expected: nat)
    requires item.value.Some?
    ensures ItemValid(ItemJson(place, item), expected) <==> place == expected && item.kind == Cap.CompCpu
  {
    ItemJsonParts(place, item);
    hide ItemJson;
    hide ORDER;
    hide REQUIREMENT;
    hide CPU_CORES;
  }

  /** The order check passes exactly on CPU items at consecutive places. */
  lemma {:induction false} ItemsValidExactly(caps: Cap.Caps, k: nat)
    requires WellFormed(caps) && k <= 256 && forall j: Byte | j < k :: j in caps.items
    ensures ItemsValid(ItemsJson(caps, k), k) <==> ConsecutiveFrom(caps, k)
    decreases 256 - k
  {
    hide ItemJson;
    hide ItemValid;
    if k < 256 && k in caps.items {
      ItemValidExactly(k, caps.items[k], k);
      ItemsValidExactly(caps, k + 1);
      assert ItemsJson(caps, k)[1..] == ItemsJson(caps, k + 1);
    } else {
      FirstItem(caps, k);
      var items := ItemsJson(caps, k);
      if items != [] {
        var p :| p in caps.items && p >= k && items[0] == ItemJson(p, caps.items[p]);
        ItemValidExactly(p, caps.items[p], k);
      }
    }
  }

  ghost predicate Upto(caps: Cap.Caps, acc: Cap.Caps, k: nat)
  {
    && (forall p: Byte :: p in acc.items <==> p in caps.items && p < k)
    && (forall p <- acc.items :: acc.items[p] == caps.items[p])
    && acc.kinds == (if acc.items == map[] then {} else {Cap.CompCpu})
  }

  lemma AddNext(caps: Cap.Caps, acc: Cap.Caps, k: Byte)
    requires WellFormed(caps) && ConsecutiveFrom(caps, 0) && Upto(caps, acc, k) && k in caps.items
    ensures Upto(caps, AddJson(acc, ItemJson(k, caps.items[k])), k + 1)
  {
    ItemJsonParts(k, caps.items[k]);
    hide ItemJson;
    hide ORDER;
    hide REQUIREMENT;
    hide CPU_CORES;
    assert caps.items[k] == Cap.Item(Cap.CompCpu, Some(caps.items[k].value.value));
    assert AddJson(acc, ItemJson(k, caps.items[k])) == Cap.AddItem(acc, caps.items[k], k);
    assert k in Cap.AddItem(acc, caps.items[k], k).items;
  }

  lemma {:induction false} AddAllBuilds(caps: Cap.Caps, acc: Cap.Caps, k: nat)
    requires WellFormed(caps) && ConsecutiveFrom(caps, 0) && Upto(caps, acc, k) && k <= 256
    ensures Upto(caps, AddAll(acc, ItemsJson(caps, k)), 256)
    decreases 256 - k
  {
    hide AddJson;
    hide ItemJson;
    if k < 256 {
      if k in caps.items {
        AddNext(caps, acc, k);
        AddAllBuilds(caps, AddJson(acc, ItemJson(k, caps.items[k])), k + 1);
        assert ItemsJson(caps, k)[1..] == ItemsJson(caps, k + 1);
      } else {
        AddAllBuilds(caps, acc, k + 1);
        assert ItemsJson(caps, k) == ItemsJson(caps, k + 1);
      }
    }
  }

  lemma UptoAll(caps: Cap.Caps, acc: Cap.Caps)
    requires WellFormed(caps) && ConsecutiveFrom(caps, 0) && Upto(caps, acc, 256)
    ensures acc == caps
  {
    assert acc.items == caps.items;
    if caps.items == map[] {
      assert caps.kinds == {};
    } else {
      var p :| p in caps.items;
      assert caps.items[p].kind == Cap.CompCpu;
      assert caps.kinds == {Cap.CompCpu};
    }
  }

  // ---- The document survives as bytes ----

  lemma ItemJsonFaithful(place: Byte, item: Cap.Item)
    requires item.value.Some? && item.value.value < UINT_BOUND
    ensures Faithful(ItemJson(place, item)) && Sized(ItemOf(ItemJson(place, item)))
  {
    Names();
    hide ORDER;
    hide REQUIREMENT;
    hide CPU_CORES;
    hide Faithful;
    hide Sized;
    NumberFaithful(place);
    NumberFaithful(item.value.value);
    var first := Member(ORDER, Number(place));
    if item.kind == Cap.CompCpu {
      var cores := Object([Member(CPU_CORES, Number(item.value.value))]);
      OneMember(CPU_CORES, Number(item.value.value));
      TwoMembers(first, Member(REQUIREMENT, cores));
      assert ItemJson(place, item).members == [first, Member(REQUIREMENT, cores)];
    } else {
      OneMember(ORDER, Number(place));
      assert ItemJson(place, item).members == [first];
    }
  }

  lemma NumberFaithful(n: nat)
    requires n < UINT_BOUND
    ensures Faithful(Number(n)) && Sized(ItemOf(Number(n)))
  {
  }

  lemma {:induction false} OneMember(key: Bytes, value: Json)
    requires 0 !in key && |key| < 100
    ensures Faithful(value) ==> Faithful(Object([Member(key, value)]))
    ensures Sized(ItemOf(value)) ==> Sized(ItemOf(Object([Member(key, value)])))
  {
    var members := [Member(key, value)];
    assert members[..0] == [];
    assert PairsOf(members) == [Pair(Str(key), ItemOf(value))];
    assert SizedPair(Pair(Str(key), ItemOf(value))) <==> Sized(ItemOf(value));
  }

  lemma TwoMembers(a: Member, b: Member)
    requires 0 !in a.key && 0 !in b.key && |a.key| < 100 && |b.key| < 100
    ensures Faithful(a.value) && Faithful(b.value) ==> Faithful(Object([a, b]))
    ensures Sized(ItemOf(a.value)) && Sized(ItemOf(b.value)) ==> Sized(ItemOf(Object([a, b])))
  {
    assert [a, b][..1] == [a] && [a][..0] == [];
    assert PairsOf([a]) == [Pair(Str(a.key), ItemOf(a.value))];
    assert PairsOf([a, b]) == [Pair(Str(a.key), ItemOf(a.value)), Pair(Str(b.key), ItemOf(b.value))];
    assert forall m <- [a, b] :: SizedPair(Pair(Str(m.key), ItemOf(m.value))) <==> Sized(ItemOf(m.value));
  }

  lemma {:induction false} ItemsJsonFaithful(caps: Cap.Caps, k: nat)
    requires WellFormed(caps)
    ensures forall i | 0 <= i < |ItemsJson(caps, k)| :: Faithful(ItemsJson(caps, k)[i]) && Sized(ItemOf(ItemsJson(caps, k)[i]))
    decreases 256 - k
  {
    hide ItemJson;
    hide Faithful;
    hide Sized;
    if k < 256 {
      ItemsJsonFaithful(caps, k + 1);
      if k in caps.items {
        ItemJsonFaithful(k, caps.items[k]);
      }
    }
  }

  lemma {:induction false} ItemsOfAt(elems: seq<Json>, i: nat)
    requires i < |elems|
    ensures ItemsOf(elems)[i] == ItemOf(elems[i])
  {
    if i < |elems| - 1 {
      ItemsOfAt(elems[..|elems| - 1], i);
    }
  }

  lemma ArrayFaithful(items: seq<Json>)
    requires |items| <= 256 && forall i | 0 <= i < |items| :: Faithful(items[i]) && Sized(ItemOf(items[i]))
    ensures Faithful(Array(items)) && Sized(ItemOf(Array(items)))
  {
    forall i | 0 <= i < |items| ensures Sized(ItemsOf(items)[i]) {
      ItemsOfAt(items, i);
    }
  }

  lemma {:induction false} DocumentFaithful(caps: Cap.Caps)
    requires WellFormed(caps)
    ensures var d := Document(ItemsJson(caps, FIRST)); Faithful(d) && Sized(ItemOf(d))
  {
    Names();
    hide REQUIREMENTS;
    hide ITEMS;
    hide Faithful;
    hide Sized;
    var items := ItemsJson(caps, FIRST);
    ItemsJsonFaithful(caps, FIRST);
    ArrayFaithful(items);
    OneMember(ITEMS, Array(items));
    OneMember(REQUIREMENTS, Object([Member(ITEMS, Array(items))]));
  }

  lemma ItemsInDocument(items: seq<Json>)
    ensures ItemsIn(Document(items)) == Some(items)
  {
  }

  lemma NonEmpty(j: Json)
    ensures Serialize(j) != []
  {
    StreamRebuilds(j);
  }

  /** Requirements sent on and received, whatever bytes follow: they arrive as they were if they are
      CPU items at consecutive places from 0, and are rejected otherwise. Nothing else can happen. */
  lemma {:induction false} RequirementsTrip(caps: Cap.Caps, schema: Schema)
    requires WellFormed(caps) && schema(Document(ItemsJson(caps, FIRST)))
    ensures Unmarshal(Marshal(caps), schema) == if Consecutive(caps) then Some(caps) else None
  {
    hide ItemsJson;
    hide Serialize;
    hide Deserialize;
    hide Document;
    hide ItemsIn;
    hide AddAll;
    var items := ItemsJson(caps, FIRST);
    DocumentFaithful(caps);
    DocumentTrip(Document(items), []);
    assert Serialize(Document(items)) + [] == Serialize(Document(items));
    NonEmpty(Document(items));
    ItemsInDocument(items);
    ItemsValidExactly(caps, FIRST);
    assert ConsecutiveFrom(caps, FIRST) <==> Consecutive(caps);
    if Consecutive(caps) {
      assert Upto(caps, Cap.NO_CAPS, FIRST);
      AddAllBuilds(caps, Cap.NO_CAPS, FIRST);
      UptoAll(caps, AddAll(Cap.NO_CAPS, items));
    }
  }

  /** What a payload stands for to the receiver. */
  function Meaning(bytes: Bytes, schema: Schema): Payload
  {
    if bytes == [] then Empty
    else
      match Unmarshal(bytes, schema)
      case None => Malformed
      case Some(caps) => Carries(caps)
  }

  /** So what a node forwards means to the next one just what the protocol model says. */
  lemma {:induction false} ForwardedMeans(caps: Cap.Caps, schema: Schema)
    requires WellFormed(caps) && schema(Document(ItemsJson(caps, FIRST)))
    ensures Meaning(Marshal(caps), schema) == Forwarded(caps)
  {
    hide Unmarshal;
    hide Consecutive;
    RequirementsTrip(caps, schema);
    NonEmpty(Document(ItemsJson(caps, FIRST)));
  }

  ghost predicate OnlyCpu(caps: Cap.Caps)
  {
    WellFormed(caps) && forall k <- caps.items :: caps.items[k].kind == Cap.CompCpu
  }

  /** Capabilities read from any payload are well formed again, so the trip can be repeated hop by
      hop. */
  lemma {:induction false} ReadIsWellFormed(caps: Cap.Caps, items: seq<Json>)
    requires OnlyCpu(caps) && forall i | 0 <= i < |items| :: Small(items[i])
    ensures OnlyCpu(AddAll(caps, items))
    decreases |items|
  {
    hide Small;
    hide OnlyCpu;
    if items != [] {
      AddKeepsOnlyCpu(caps, items[0]);
      ReadIsWellFormed(AddJson(caps, items[0]), items[1..]);
    }
  }

  /** The core count of an item, if any, is a 32-bit number, as GetUint asserts. */
  predicate Small(j: Json)
  {
    match Get(j, REQUIREMENT)
    case Some(Object(members)) => members != [] && members[0].value.Number? ==> members[0].value.n < UINT_BOUND
    case _ => true
  }

  lemma AddKeepsOnlyCpu(caps: Cap.Caps, j: Json)
    requires OnlyCpu(caps) && Small(j)
    ensures OnlyCpu(AddJson(caps, j))
  {
    hide CPU_CORES;
    hide ORDER;
    hide REQUIREMENT;
    var out := AddJson(caps, j);
    if out != caps {
      var place: Byte := Get(j, ORDER).value.n % 256;
      var item := Cap.Item(Cap.CompCpu, Some(Get(j, REQUIREMENT).value.members[0].value.n));
      assert out == Cap.AddItem(caps, item, place);
      assert place in out.items && out.items[place].kind == Cap.CompCpu;
      forall kind ensures kind in out.kinds <==> exists k <- out.items :: out.items[k].kind == kind {
        if kind in caps.kinds {
          var k :| k in caps.items && caps.items[k].kind == kind;
          assert k in out.items && out.items[k].kind == kind;
        }
      }
    }
  }
}
