/** Mapping#put and #get, Hash#proton_data_put, Array#proton_put and their readers, as they drive the cursor. */
module Mappings {
  import opened Wrappers
  import opened Values
  import opened Cursors
  import opened Codec

  /** The outcome of a put: the node has been added, and nothing at or before the cursor has changed; after a failure
      the latter still holds, but the cursor may be left inside an unfinished node. The failure Undefined claims nothing
      of the code: there the model stops. */
  ghost predicate HasPut(c: Cursor, c': Cursor, node: Result<Node, Failure>, failure: Option<Failure>) {
    && Keeps(c, c')
    && match node
       case Ok(n) => failure.None? && c' == Added(c, n)
       case Err(e) => failure == Some(e)
  }

  /** The outcome of a get that asks for a node of one kind: a type error for any other, or for none. */
  ghost predicate HasGotIf(asked: bool, c: Cursor, c': Cursor, n: Node, r: Result<Value, Failure>) {
    if asked && c.HasCurrent() then HasGot(c, c', n, r) else c' == c && r == Err(TypeFailure)
  }

  /** The outcome of a get: the value; the tree is as before, and so is the cursor unless the get failed. */
  ghost predicate HasGot(c: Cursor, c': Cursor, n: Node, r: Result<Value, Failure>) {
    && c.Valid() && c'.Valid() && Root(c') == Root(c)
    && r == Decode(n) && (r.Ok? ==> c' == c)
  }

  /** The cursor has been moved to a new node `d` and has filled it with `children` so far. */
  ghost predicate Filling(c: Cursor, c': Cursor, d: Datum, children: seq<Node>) {
    c.Valid() && c' == Cursor(children, |children|, Entered(Added(c, Node(d, []))).above)
  }

  lemma FillsOneMore(c: Cursor, c1: Cursor, d: Datum, children: seq<Node>, n: Node)
    requires Filling(c, c1, d, children)
    ensures Filling(c, Added(c1, n), d, children + [n])
  {
  }

  lemma FillingKeeps(c: Cursor, c1: Cursor, d: Datum, children: seq<Node>)
    requires Filling(c, c1, d, children)
    ensures Keeps(c, c1)
  {
    AddedKeeps(c, Node(d, []));
  }

  lemma FailedFilling(c: Cursor, c1: Cursor, c2: Cursor, d: Datum, children: seq<Node>)
    requires Filling(c, c1, d, children) && Keeps(c1, c2)
    ensures Keeps(c, c2)
  {
    FillingKeeps(c, c1, d, children);
    KeepsTransitive(c, c1, c2);
  }

  lemma Filled(c: Cursor, c1: Cursor, d: Datum, children: seq<Node>)
    requires Filling(c, c1, d, children)
    ensures Exited(c1) == Added(c, Node(d, children)) && Keeps(c, Exited(c1))
  {
    FilledInside(c, d, children);
    AddedKeeps(c, Node(d, children));
  }

  lemma {:induction false} PairsFailureStays(v: Value, i: nat, k: nat, symbols: bool)
    requires v.Hash? && i <= k <= |v.entries| && EncodePairs(v, i, symbols).Err?
    ensures EncodePairs(v, k, symbols) == EncodePairs(v, i, symbols)
    decreases k
  {
    if i == k {
    } else {
      PairsFailureStays(v, i, k - 1, symbols);
    }
  }

  lemma {:induction false} ElementsFailureStays(header: Option<Header>, vs: seq<Value>, i: nat, k: nat)
    requires i <= k <= |vs| && EncodeElements(header, vs, i).Err?
    ensures EncodeElements(header, vs, k) == EncodeElements(header, vs, i)
    decreases k
  {
    if i == k {
    } else {
      ElementsFailureStays(header, vs, i, k - 1);
    }
  }

  method StartFilling(data: Data, d: Datum)
    requires data.at.Valid()
    modifies data
    ensures Filling(old(data.at), data.at, d, [])
  {
    ghost var c := data.at;
    data.Put(d);
    var _ := data.Enter();
    FilledInside(c, d, []);
  }

  method PutLeaf(data: Data, node: Result<Node, Failure>) returns (failure: Option<Failure>)
    requires data.at.Valid() && (node.Ok? ==> node.value.children == [])
    modifies data
    ensures HasPut(old(data.at), data.at, node, failure)
  {
    if node.Err? { return Some(node.error); }
    AddedKeeps(data.at, node.value);
    data.Put(node.value.datum);
    failure := None;
  }

  /** mapping.put(data, value) */
  method Put(data: Data, code: Code, v: Value) returns (failure: Option<Failure>)
    requires data.at.Valid()
    modifies data
    ensures HasPut(old(data.at), data.at, Encode(code, v), failure)
    decreases v, 1
  {
    if code == MAP {
      failure := PutMap(data, v, false);
    } else {
      failure := PutLeaf(data, Encode(code, v));
    }
  }

  /** MAP.put, with the option :keys => :SYMBOL if `symbols` is set. */
  method PutMap(data: Data, v: Value, symbols: bool) returns (failure: Option<Failure>)
    requires data.at.Valid()
    modifies data
    ensures HasPut(old(data.at), data.at, EncodeMap(v, symbols), failure)
    decreases v, 0
  {
    ghost var c := data.at;
    StartFilling(data, MapDatum);
    FillingKeeps(c, data.at, MapDatum, []);
    if !v.Hash? { return Some(NoMethodFailure); }
    ghost var children: seq<Node> := [];
    for i := 0 to |v.entries|
      invariant Filling(c, data.at, MapDatum, children)
      invariant EncodePairs(v, i, symbols) == Ok(children)
    {
      failure := PutPair(data, v.entries[i], symbols, c, children);
      if failure.Some? {
        PairsFailureStays(v, i + 1, |v.entries|, symbols);
        return;
      }
      children := EncodePairs(v, i + 1, symbols).value;
    }
    Filled(c, data.at, MapDatum, children);
    data.Exit();
    failure := None;
  }

  /** Hash#proton_data_put: the same node as MAP.put without the option. */
  method ProtonDataPut(data: Data, v: Value) returns (failure: Option<Failure>)
    requires data.at.Valid() && v.Hash?
    modifies data
    ensures HasPut(old(data.at), data.at, EncodeMap(v, false), failure)
  {
    ghost var c := data.at;
    StartFilling(data, MapDatum);
    ghost var children: seq<Node> := [];
    var i := 0;
    while i < |v.entries|
      invariant i <= |v.entries| && Filling(c, data.at, MapDatum, children)
      invariant EncodePairs(v, i, false) == Ok(children)
    {
      failure := PutPair(data, v.entries[i], false, c, children);
      if failure.Some? {
        PairsFailureStays(v, i + 1, |v.entries|, false);
        return;
      }
      i := i + 1;
      children := EncodePairs(v, i, false).value;
    }
    Filled(c, data.at, MapDatum, children);
    data.Exit();
    failure := None;
  }

  /** One pair of a map being filled. */
  method PutPair(data: Data, e: Entry, symbols: bool, ghost c: Cursor, ghost children: seq<Node>)
    returns (failure: Option<Failure>)
    requires Filling(c, data.at, MapDatum, children)
    modifies data
    ensures Keeps(c, data.at)
    ensures
      match (Encode(KeyCode(e.key, symbols), e.key), Encode(ForClass(e.value), e.value))
      case (Err(f), _) => failure == Some(f)
      case (Ok(_), Err(f)) => failure == Some(f)
      case (Ok(key), Ok(value)) => failure.None? && Filling(c, data.at, MapDatum, children + [key, value])
    decreases e
  {
    ghost var c0 := data.at;
    failure := Put(data, KeyCode(e.key, symbols), e.key);
    FailedFilling(c, c0, data.at, MapDatum, children);
    if failure.Some? { return; }
    ghost var key := Encode(KeyCode(e.key, symbols), e.key).value;
    FillsOneMore(c, c0, MapDatum, children, key);
    ghost var c1 := data.at;
    failure := Put(data, ForClass(e.value), e.value);
    FailedFilling(c, c1, data.at, MapDatum, children + [key]);
    if failure.Some? { return; }
    ghost var value := Encode(ForClass(e.value), e.value).value;
    FillsOneMore(c, c1, MapDatum, children + [key], value);
    assert children + [key] + [value] == children + [key, value];
  }

  /** Array#proton_put: proton_put_list without a header, proton_put_array with one. */
  method ProtonPut(data: Data, v: Value) returns (failure: Option<Failure>)
    requires data.at.Valid() && v.Arr?
    modifies data
    ensures HasPut(old(data.at), data.at, EncodeArray(v), failure)
  {
    ghost var c := data.at;
    failure := StartArray(data, v.header);
    if failure.Some? { return; }
    ghost var prefix := DescriptorOf(v.header).value;
    ghost var nodes: seq<Node> := [];
    for i := 0 to |v.elements|
      invariant FillingArray(c, data.at, v.header, prefix, nodes)
      invariant EncodeElements(v.header, v.elements, i) == Ok(nodes)
    {
      failure := PutElement(data, v.header, v.elements[i], c, prefix, nodes);
      if failure.Some? {
        ElementsFailureStays(v.header, v.elements, i + 1, |v.elements|);
        return;
      }
      nodes := EncodeElements(v.header, v.elements, i + 1).value;
    }
    Filled(c, data.at, ArrayDatumOf(v.header), prefix + nodes);
    data.Exit();
    failure := None;
  }

  /** The list or array node has been entered, and holds its descriptor, if any, and `nodes`. */
  ghost predicate FillingArray(c: Cursor, c': Cursor, header: Option<Header>, prefix: seq<Node>, nodes: seq<Node>) {
    Filling(c, c', ArrayDatumOf(header), prefix + nodes)
  }

  method StartArray(data: Data, header: Option<Header>) returns (failure: Option<Failure>)
    requires data.at.Valid()
    modifies data
    ensures Keeps(old(data.at), data.at)
    ensures
      match DescriptorOf(header)
      case Err(f) => failure == Some(f)
      case Ok(prefix) => failure.None? && FillingArray(old(data.at), data.at, header, prefix, [])
  {
    ghost var c := data.at;
    StartFilling(data, ArrayDatumOf(header));
    FillingKeeps(c, data.at, ArrayDatumOf(header), []);
    if header.None? || header.value.descriptor.Nil? { return None; }
    ghost var c1 := data.at;
    failure := Put(data, SYMBOL, header.value.descriptor);
    FailedFilling(c, c1, data.at, ArrayDatumOf(header), []);
    if failure.None? {
      ghost var prefix := DescriptorOf(header).value;
      FillsOneMore(c, c1, ArrayDatumOf(header), [], prefix[0]);
      assert [] + [prefix[0]] == prefix == prefix + [];
    }
  }

  method PutElement(
    data: Data, header: Option<Header>, v: Value, ghost c: Cursor, ghost prefix: seq<Node>, ghost nodes: seq<Node>)
    returns (failure: Option<Failure>)
    requires FillingArray(c, data.at, header, prefix, nodes)
    modifies data
    ensures Keeps(c, data.at)
    ensures
      match Encode(ElementCode(header, v), v)
      case Err(f) => failure == Some(f)
      case Ok(n) => failure.None? && FillingArray(c, data.at, header, prefix, nodes + [n])
  {
    ghost var c1 := data.at;
    ghost var d, children := ArrayDatumOf(header), prefix + nodes;
    failure := Put(data, ElementCode(header, v), v);
    FailedFilling(c, c1, data.at, d, children);
    if failure.None? {
      ghost var n := Encode(ElementCode(header, v), v).value;
      FillsOneMore(c, c1, d, children, n);
      assert children + [n] == prefix + (nodes + [n]);
    }
  }

  // ----- Get.

  /** The cursor is past `k` of the children of a node `n`, and leaving `n` leads back to `c`. */
  ghost predicate Inside(c: Cursor, c': Cursor, n: Node, k: nat) {
    c'.siblings == n.children && c'.passed == k <= |n.children| && c'.above != [] && Exited(c') == c
  }

  lemma EnterIsInside(c: Cursor)
    requires c.Valid() && c.HasCurrent()
    ensures Inside(c, Entered(c), c.Current(), 0)
  {
    ExitUndoesEnter(c, 0);
  }

  lemma AdvanceIsInside(c: Cursor, c': Cursor, n: Node, k: nat)
    requires Inside(c, c', n, k) && k < |n.children|
    ensures Advanced(c').Valid() && Inside(c, Advanced(c'), n, k + 1) && Advanced(c').Current() == n.children[k]
  {
  }

  lemma InsideSameTree(c: Cursor, c': Cursor, n: Node, k: nat)
    requires Inside(c, c', n, k)
    ensures c'.Valid() && Root(c') == Root(c)
  {
  }

  lemma {:induction false} GotPairsFailureStays(n: Node, i: nat, k: nat)
    requires i <= k && 2 * k <= |n.children| && DecodePairs(n, i).Err?
    ensures DecodePairs(n, k) == DecodePairs(n, i)
    decreases k
  {
    if i == k {
    } else {
      GotPairsFailureStays(n, i, k - 1);
    }
  }

  lemma {:induction false} GotElementsFailureStays(n: Node, first: nat, i: nat, k: nat, element: Option<Code>)
    requires i <= k && first + k <= |n.children| && DecodeElements(n, first, i, element).Err?
    ensures DecodeElements(n, first, k, element) == DecodeElements(n, first, i, element)
    decreases k
  {
    if i == k {
    } else {
      GotElementsFailureStays(n, first, i, k - 1, element);
    }
  }

  /** type.get(data) with the type of the current node `n`. */
  method Get(data: Data, ghost n: Node) returns (r: Result<Value, Failure>)
    requires data.at.Valid() && data.at.HasCurrent() && data.at.Current() == n
    modifies data
    ensures HasGot(old(data.at), data.at, n, r)
    decreases n, 5
  {
    var node := data.at.Current();
    match node.datum
    case MapDatum => r := ProtonDataGet(data, n);
    case ListDatum => r := ProtonGet(data, n);
    case ArrayDatum(_, _) => r := ProtonGet(data, n);
    case DescribedDatum => r := GetDescribed(data, n);
    case _ => r := Decode(node);
  }

  /** The next child of the node the cursor is inside. */
  method GetNext(data: Data, ghost c: Cursor, ghost n: Node, ghost k: nat) returns (r: Result<Value, Failure>)
    requires Inside(c, data.at, n, k) && k < |n.children|
    modifies data
    ensures data.at.Valid() && Root(data.at) == Root(c) && r == Decode(n.children[k])
    ensures r.Ok? ==> Inside(c, data.at, n, k + 1)
    decreases n, 0
  {
    AdvanceIsInside(c, data.at, n, k);
    var _ := data.Next();
    InsideSameTree(c, data.at, n, k + 1);
    r := Get(data, n.children[k]);
  }

  /** The hash after one more pair, from what its two nodes decode to. */
  lemma DecodeOnePair(n: Node, i: nat, key: Result<Value, Failure>, value: Result<Value, Failure>)
    requires 2 * i + 2 <= |n.children| && DecodePairs(n, i).Ok?
    requires key == Decode(n.children[2 * i]) && (key.Ok? ==> value == Decode(n.children[2 * i + 1]))
    ensures DecodePairs(n, i + 1) ==
      if key.Err? then Err(key.error)
      else if value.Err? then Err(value.error)
      else Ok(Store(DecodePairs(n, i).value, key.value, value.value))
  {
  }

  /** The next key and value, stored: result[key] = value. */
  method GetPair(data: Data, result: seq<Entry>, ghost c: Cursor, ghost n: Node, ghost i: nat)
    returns (r: Result<seq<Entry>, Failure>)
    requires Inside(c, data.at, n, 2 * i) && 2 * i + 2 <= |n.children| && DecodePairs(n, i) == Ok(result)
    modifies data
    ensures data.at.Valid() && Root(data.at) == Root(c) && r == DecodePairs(n, i + 1)
    ensures r.Ok? ==> Inside(c, data.at, n, 2 * i + 2)
    decreases n, 1
  {
    var key := GetNext(data, c, n, 2 * i);
    var value := key;
    if key.Ok? { value := GetNext(data, c, n, 2 * i + 1); }
    DecodeOnePair(n, i, key, value);
    r := if value.Err? then Err(value.error) else Ok(Store(result, key.value, value.value));
  }

  /** Hash.proton_data_get */
  method ProtonDataGet(data: Data, ghost n: Node) returns (r: Result<Value, Failure>)
    requires data.at.Valid() && (data.at.HasCurrent() ==> data.at.Current() == n)
    modifies data
    ensures HasGotIf(n.datum.MapDatum?, old(data.at), data.at, n, r)
    decreases n, 3
  {
    if data.Type() != Some(MAP) { return Err(TypeFailure); }
    ghost var c := data.at;
    var count := |data.at.Current().children|;
    EnterIsInside(c);
    var _ := data.Enter();
    DecodeMapNode(n, count / 2);
    var result := GetPairs(data, count / 2, c, n);
    if result.Err? { return Err(result.error); }
    InsideSameTree(c, data.at, n, 2 * (count / 2));
    data.Exit();
    r := Ok(Hash(result.value));
  }

  /** The loop over the pairs. */
  method GetPairs(data: Data, half: nat, ghost c: Cursor, ghost n: Node) returns (r: Result<seq<Entry>, Failure>)
    requires Inside(c, data.at, n, 0) && 2 * half <= |n.children|
    modifies data
    ensures data.at.Valid() && Root(data.at) == Root(c) && r == DecodePairs(n, half)
    ensures r.Ok? ==> Inside(c, data.at, n, 2 * half)
    decreases n, 2
  {
    r := Ok([]);
    InsideSameTree(c, data.at, n, 0);
    for i := 0 to half
      invariant r.Ok? && r == DecodePairs(n, i)
      invariant Inside(c, data.at, n, 2 * i) && data.at.Valid() && Root(data.at) == Root(c)
    {
      r := GetPair(data, r.value, c, n, i);
      if r.Err? {
        GotPairsFailureStays(n, i + 1, half);
        return;
      }
    }
  }

  /** Array.proton_get */
  method ProtonGet(data: Data, ghost n: Node) returns (r: Result<Value, Failure>)
    requires data.at.Valid() && (data.at.HasCurrent() ==> data.at.Current() == n)
    modifies data
    ensures HasGotIf(n.datum.ListDatum? || n.datum.ArrayDatum?, old(data.at), data.at, n, r)
    decreases n, 4
  {
    if data.Type() == Some(LIST) {
      r := GetList(data, n);
    } else if data.Type() == Some(ARRAY) {
      r := GetArray(data, n);
    } else {
      r := Err(TypeFailure);
    }
  }

  /** Array.proton_get_list */
  method GetList(data: Data, ghost n: Node) returns (r: Result<Value, Failure>)
    requires data.at.Valid() && data.at.HasCurrent() && data.at.Current() == n && n.datum.ListDatum?
    modifies data
    ensures HasGot(old(data.at), data.at, n, r)
    decreases n, 2
  {
    ghost var c := data.at;
    var size := |data.at.Current().children|;
    EnterIsInside(c);
    var _ := data.Enter();
    var elements := [];
    for i := 0 to size
      invariant Inside(c, data.at, n, i)
      invariant DecodeElements(n, 0, i, None) == Ok(elements)
    {
      r := GetNext(data, c, n, i);
      if r.Err? {
        GotElementsFailureStays(n, 0, i + 1, size, None);
        return;
      }
      elements := elements + [r.value];
    }
    InsideSameTree(c, data.at, n, size);
    data.Exit();
    r := Ok(Arr(None, elements));
  }

  /** The next element of an AMQP array, if there is one and it is of the element type. */
  method GetElement(
    data: Data, elements: seq<Value>, element: Code, ghost c: Cursor, ghost n: Node, ghost first: nat, ghost k: nat)
    returns (r: Result<seq<Value>, Failure>)
    requires first + k < |n.children| && Inside(c, data.at, n, first + k)
    requires DecodeElements(n, first, k, Some(element)) == Ok(elements)
    modifies data
    ensures data.at.Valid() && Root(data.at) == Root(c) && r == DecodeElements(n, first, k + 1, Some(element))
    ensures r.Ok? ==> Inside(c, data.at, n, first + k + 1)
    decreases n, 0
  {
    AdvanceIsInside(c, data.at, n, first + k);
    var ok := data.Next();
    InsideSameTree(c, data.at, n, first + k + 1);
    if !ok { return Ok(elements); }
    if TypeOf(data.at.Current()) != element { return Err(TypeFailure); }
    var v := Get(data, n.children[first + k]);
    r := if v.Ok? then Ok(elements + [v.value]) else Err(v.error);
  }

  /** The descriptor of a described array, which is passed before the elements are counted. */
  method GetDescriptor(data: Data, described: bool, ghost c: Cursor, ghost n: Node)
    returns (descriptor: Value)
    requires Inside(c, data.at, n, 0) && n.datum.ArrayDatum? && described == n.datum.described
    modifies data
    ensures descriptor == if described then SymbolAt(n) else Nil
    ensures Inside(c, data.at, n, if described && n.children != [] then 1 else 0)
  {
    if !described { return Nil; }
    if n.children != [] { AdvanceIsInside(c, data.at, n, 0); }
    var ok := data.Next();
    descriptor := if ok then GetSymbol(data.at.Current().datum) else Str([], PlainString, true);
  }

  /** Array.proton_get_array */
  method GetArray(data: Data, ghost n: Node) returns (r: Result<Value, Failure>)
    requires data.at.Valid() && data.at.HasCurrent() && data.at.Current() == n && n.datum.ArrayDatum?
    modifies data
    ensures HasGot(old(data.at), data.at, n, r)
    decreases n, 2
  {
    ghost var c := data.at;
    var node := data.at.Current();
    var described, element := node.datum.described, node.datum.element;
    var count := |node.children| - if described then 1 else 0;
    EnterIsInside(c);
    var _ := data.Enter();
    var descriptor := GetDescriptor(data, described, c, n);
    ghost var first := if described && n.children != [] then 1 else 0;
    var elements := GetElements(data, element, count, c, n, first);
    DecodeArrayNode(n, first, |n.children| - first);
    if elements.Err? { return Err(elements.error); }
    InsideSameTree(c, data.at, n, |n.children|);
    data.Exit();
    r := Ok(Arr(Some(Header(element, descriptor)), elements.value));
  }

  /** The loop over the elements; the count of a described array without a child is -1. */
  method GetElements(data: Data, element: Code, count: int, ghost c: Cursor, ghost n: Node, ghost first: nat)
    returns (r: Result<seq<Value>, Failure>)
    requires first <= |n.children| && Inside(c, data.at, n, first)
    requires var size := |n.children| - first; count == size || (count == -1 && size == 0)
    modifies data
    ensures data.at.Valid() && Root(data.at) == Root(c)
    ensures r == DecodeElements(n, first, |n.children| - first, Some(element))
    ensures r.Ok? ==> Inside(c, data.at, n, |n.children|)
    decreases n, 1
  {
    ghost var size := |n.children| - first;
    InsideSameTree(c, data.at, n, first);
    r := Ok([]);
    var which := 0;
    while which < count
      invariant 0 <= which <= size && r.Ok?
      invariant Inside(c, data.at, n, first + which) && Root(data.at) == Root(c)
      invariant DecodeElements(n, first, which, Some(element)) == r
    {
      r := GetElement(data, r.value, element, c, n, first, which);
      if r.Err? {
        GotElementsFailureStays(n, first, which + 1, size, Some(element));
        return;
      }
      which := which + 1;
      InsideSameTree(c, data.at, n, first + which);
    }
  }

  /** get_described */
  method GetDescribed(data: Data, ghost n: Node) returns (r: Result<Value, Failure>)
    requires data.at.Valid() && (data.at.HasCurrent() ==> data.at.Current() == n)
    modifies data
    ensures HasGotIf(n.datum.DescribedDatum?, old(data.at), data.at, n, r)
    decreases n, 2
  {
    if data.Type() != Some(DESCRIBED) { return Err(TypeFailure); }
    ghost var c := data.at;
    EnterIsInside(c);
    var _ := data.Enter();
    if n.children != [] { AdvanceIsInside(c, data.at, n, 0); }
    InsideSameTree(c, data.at, n, 0);
    var _ := data.Next();
    if data.Type().None? { return Err(NoMethodFailure); }
    InsideSameTree(c, data.at, n, 1);
    r := Get(data, n.children[0]);
    if r.Err? { return; }
    var descriptor := r.value;
    if |n.children| > 1 { AdvanceIsInside(c, data.at, n, 1); }
    var _ := data.Next();
    ghost var k := if |n.children| > 1 then 2 else 1;
    InsideSameTree(c, data.at, n, k);
    r := Get(data, n.children[k - 1]);
    if r.Err? { return; }
    var value := r.value;
    data.Exit();
    r := Ok(Described(descriptor, value));
  }
}
