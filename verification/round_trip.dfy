/** What a value is after it has been put and got again. */
module RoundTrips {
  import opened Wrappers
  import opened Values
  import opened Cursors
  import opened Bindings
  import opened Codec

  function PutThenGet(code: Code, v: Value): Result<Value, Failure> {
    match Encode(code, v)
    case Ok(n) => Decode(n)
    case Err(e) => Err(e)
  }

  /** The integers that can be put as a type: what the binding takes, without what uint= and ulong= refuse. */
  predicate IsPut(w: Width, n: int) {
    IsTaken(w, n) && (w == UInt || w == ULong ==> n >= 0)
  }

  /** The values that can be put with a mapping and got again. */
  predicate Fits(code: Code, v: Value)
    decreases v, 1
  {
    match code
    case NULL => true
    case BOOL => v.Bool? || (v.Int? && InRange(Int32, v.n))
    case WHOLE(w) => (v.Int? && IsPut(w, v.n)) || (w == Timestamp && v.Time? && InRange(w, v.at.Floor))
    case DOUBLE => v.Float? || v.Int?
    case BINARY => v.Str? || v.Nil?
    case STRING => v.Sym? || (v.Str? && (v.class_ == UTFString ==> IsUtf8(v.bytes)))
    case SYMBOL => v.Str? || v.Nil?
    case MAP => v.Hash? && FitsPairs(v, |v.entries|, false)
    case _ => false
  }

  predicate FitsPairs(v: Value, k: nat, symbols: bool)
    requires v.Hash? && k <= |v.entries|
    decreases v, 0
  {
    forall i :: 0 <= i < k ==> FitsPair(v.entries[i], symbols)
  }

  predicate FitsPair(e: Entry, symbols: bool)
    decreases e
  {
    Fits(KeyCode(e.key, symbols), e.key) && Fits(ForClass(e.value), e.value)
  }

  /** What an integer put as a type has become: of the 32-bit types, what is left of it at 32 bits. */
  function Held(w: Width, n: int): int {
    match w
    case UInt => n % WORD
    case Char => n % WORD
    case Int32 => CastSigned(n)
    case _ => n
  }

  /** What such a value has become: a symbol a string, nil false, a time its seconds, an integer among doubles a float
      and among booleans a boolean, nil among strings an empty one, a string one of the class it was sent as; and of
      colliding keys of a hash the last value is left. */
  function Norm(code: Code, v: Value): Value
    decreases v, 1
  {
    match code
    case NULL => Bool(false)
    case BOOL => if v.Int? then Bool(v.n != 0) else v
    case WHOLE(w) => if v.Time? then Int(v.at.Floor) else if v.Int? then Int(Held(w, v.n)) else v
    case DOUBLE => if v.Int? then Float(v.n as real) else v
    case BINARY => if v.Str? || v.Nil? then Str(BytesOf(v), BinaryString, true) else v
    case SYMBOL => if v.Str? || v.Nil? then Str(BytesOf(v), PlainString, true) else v
    case STRING =>
      if !v.Str? && !v.Sym? then v
      else if IsText(v) then Str(Text(v), UTFString, false)
      else Str(Text(v), BinaryString, true)
    case MAP => if v.Hash? then Hash(StoreAll(NormPairs(v, false))) else v
    case _ => v
  }

  function BytesOf(v: Value): Bytes
    requires v.Str? || v.Nil?
  {
    if v.Str? then v.bytes else []
  }

  function NormPairs(v: Value, symbols: bool): (es: seq<Entry>)
    requires v.Hash?
    ensures |es| == |v.entries| && forall i :: 0 <= i < |es| ==> es[i] == NormPair(v.entries[i], symbols)
    decreases v, 0
  {
    seq(|v.entries|, i requires 0 <= i < |v.entries| => NormPair(v.entries[i], symbols))
  }

  function NormPair(e: Entry, symbols: bool): Entry
    decreases e
  {
    Entry(Norm(KeyCode(e.key, symbols), e.key), Norm(ForClass(e.value), e.value))
  }

  // ----- Maps.

  /** The last two of the nodes of `k` pairs. */
  lemma LastPairPut(v: Value, k: nat, symbols: bool)
    requires v.Hash? && 0 < k <= |v.entries| && EncodePairs(v, k, symbols).Ok?
    ensures EncodePairs(v, k - 1, symbols).Ok?
    ensures
      var e, before, nodes := v.entries[k - 1], EncodePairs(v, k - 1, symbols).value, EncodePairs(v, k, symbols).value;
      && Encode(KeyCode(e.key, symbols), e.key).Ok? && Encode(ForClass(e.value), e.value).Ok?
      && nodes == before + [Encode(KeyCode(e.key, symbols), e.key).value, Encode(ForClass(e.value), e.value).value]
  {
  }

  lemma NormPrefix(v: Value, k: nat, symbols: bool)
    requires v.Hash? && 0 < k <= |v.entries|
    ensures
      var before, e := StoreAll(NormPairs(v, symbols)[..k - 1]), NormPair(v.entries[k - 1], symbols);
      StoreAll(NormPairs(v, symbols)[..k]) == Store(before, e.key, e.value)
  {
    var pairs := NormPairs(v, symbols)[..k];
    assert pairs[..k - 1] == NormPairs(v, symbols)[..k - 1];
  }

  lemma FitsOneMore(v: Value, k: nat, symbols: bool)
    requires v.Hash? && 0 < k <= |v.entries|
    ensures FitsPairs(v, k, symbols) <==> FitsPairs(v, k - 1, symbols) && FitsPair(v.entries[k - 1], symbols)
  {
  }

  /** The hash after `k` pairs, from the one before and what the next two nodes decode to. */
  lemma LastPairGot(n: Node, k: nat)
    requires 0 < k && 2 * k <= |n.children|
    ensures
      var h, key, value := DecodePairs(n, k - 1), Decode(n.children[2 * k - 2]), Decode(n.children[2 * k - 1]);
      && (DecodePairs(n, k).Ok? <==> h.Ok? && key.Ok? && value.Ok?)
      && (DecodePairs(n, k).Ok? ==> DecodePairs(n, k).value == Store(h.value, key.value, value.value))
  {
  }

  lemma {:induction false} PairsRoundTrip(v: Value, k: nat, symbols: bool, n: Node)
    requires v.Hash? && k <= |v.entries|
    requires EncodePairs(v, k, symbols).Ok? && EncodePairs(v, k, symbols).value <= n.children
    ensures |EncodePairs(v, k, symbols).value| == 2 * k
    ensures DecodePairs(n, k).Ok? <==> FitsPairs(v, k, symbols)
    ensures FitsPairs(v, k, symbols) ==> DecodePairs(n, k) == Ok(StoreAll(NormPairs(v, symbols)[..k]))
    decreases v, 0, k
  {
    if k == 0 {
    } else {
      LastPairPut(v, k, symbols);
      PairsRoundTrip(v, k - 1, symbols, n);
      PairRoundTrip(v.entries[k - 1], symbols);
      var a, b := n.children[2 * k - 2], n.children[2 * k - 1];
      assert EncodePairs(v, k, symbols).value[2 * k - 2..] == [a, b];
      LastPairGot(n, k);
      FitsOneMore(v, k, symbols);
      NormPrefix(v, k, symbols);
    }
  }

  lemma {:induction false} PairsUnput(v: Value, k: nat, symbols: bool)
    requires v.Hash? && k <= |v.entries| && EncodePairs(v, k, symbols).Err?
    ensures !FitsPairs(v, k, symbols)
    decreases v, 0, k
  {
    if EncodePairs(v, k - 1, symbols).Err? {
      PairsUnput(v, k - 1, symbols);
    } else {
      PairRoundTrip(v.entries[k - 1], symbols);
    }
  }

  lemma {:induction false} PairRoundTrip(e: Entry, symbols: bool)
    ensures FitsPair(e, symbols) <==>
      PutThenGet(KeyCode(e.key, symbols), e.key).Ok? && PutThenGet(ForClass(e.value), e.value).Ok?
    ensures FitsPair(e, symbols) ==>
      && PutThenGet(KeyCode(e.key, symbols), e.key) == Ok(NormPair(e, symbols).key)
      && PutThenGet(ForClass(e.value), e.value) == Ok(NormPair(e, symbols).value)
    decreases e
  {
    ValueRoundTrip(KeyCode(e.key, symbols), e.key);
    ValueRoundTrip(ForClass(e.value), e.value);
  }

  /** A hash put with either form of keys comes back, with its values and keys normalised and merged, exactly if every
      pair fits. */
  lemma {:induction false} MapRoundTrip(v: Value, symbols: bool)
    requires v.Hash?
    ensures
      var fits := FitsPairs(v, |v.entries|, symbols);
      match EncodeMap(v, symbols)
      case Err(_) => !fits
      case Ok(n) =>
        && (Decode(n).Ok? <==> fits)
        && (fits ==> Decode(n) == Ok(Hash(StoreAll(NormPairs(v, symbols)))))
    decreases v, 1
  {
    var k := |v.entries|;
    match EncodePairs(v, k, symbols)
    case Err(_) => PairsUnput(v, k, symbols);
    case Ok(children) =>
      PairsRoundTrip(v, k, symbols, Node(MapDatum, children));
      DecodeMapNode(Node(MapDatum, children), k);
      assert NormPairs(v, symbols)[..k] == NormPairs(v, symbols);
  }

  /** What an integer is held as is in the range of the type and equal to it modulo the size of the type. */
  lemma HeldIsTaken(w: Width, n: int)
    requires IsPut(w, n)
    ensures AsWhole(w, n) == Ok(Held(w, n)) && InRange(w, Held(w, n))
    ensures (Held(w, n) - n) % Modulus(w) == 0
    ensures Held(w, n) == n <==> InRange(w, n)
  {
    TakenAs(w, n);
    if w == UInt || w == Char { SameModuloWord(n); }
  }

  /** The round trip of scalars and of maps nested in any way: a value comes back exactly if it fits, and then as its
      normal form. Of one that does not fit, put or get raises, unless the binding has taken it for a string. */
  lemma {:induction false} ValueRoundTrip(code: Code, v: Value)
    ensures PutThenGet(code, v).Ok? <==> Fits(code, v)
    ensures Fits(code, v) ==> PutThenGet(code, v) == Ok(Norm(code, v))
    decreases v, 2
  {
    if code == MAP {
      assert Encode(code, v) == EncodeMap(v, false);
      if v.Hash? { MapRoundTrip(v, false); }
    } else if code.WHOLE? {
      WholeRoundTrip(code.width, v);
    }
  }

  lemma WholeRoundTrip(w: Width, v: Value)
    ensures PutThenGet(WHOLE(w), v).Ok? <==> Fits(WHOLE(w), v)
    ensures Fits(WHOLE(w), v) ==> PutThenGet(WHOLE(w), v) == Ok(Norm(WHOLE(w), v))
  {
    if v.Int? {
      TakenAs(w, v.n);
      if IsPut(w, v.n) { HeldIsTaken(w, v.n); }
    } else if v.Time? {
      TakenAs(w, v.at.Floor);
    }
  }

  /** An integer that can be put as a type comes back equal exactly if it is in the range of the type, and otherwise off
      by a multiple of 2^32. */
  lemma WholeComesBackIffInRange(w: Width, n: int)
    requires IsPut(w, n)
    ensures PutThenGet(WHOLE(w), Int(n)) == Ok(Int(Held(w, n)))
    ensures PutThenGet(WHOLE(w), Int(n)) == Ok(Int(n)) <==> InRange(w, n)
    ensures !InRange(w, n) ==> w in {UInt, Char, Int32} && (Held(w, n) - n) % WORD == 0
  {
    ValueRoundTrip(WHOLE(w), Int(n));
    HeldIsTaken(w, n);
  }

  // ----- Lists and arrays.

  /** In an AMQP array of strings only text is of the element type. */
  predicate FitsElement(header: Option<Header>, v: Value) {
    var code := ElementCode(header, v);
    Fits(code, v) && (header.Some? && code == STRING && (v.Str? || v.Sym?) ==> IsText(v))
  }

  predicate FitsElements(header: Option<Header>, vs: seq<Value>, k: nat)
    requires k <= |vs|
  {
    forall i :: 0 <= i < k ==> FitsElement(header, vs[i])
  }

  function NormElements(header: Option<Header>, vs: seq<Value>): (r: seq<Value>)
    ensures |r| == |vs|
  {
    seq(|vs|, i requires 0 <= i < |vs| => Norm(ElementCode(header, vs[i]), vs[i]))
  }

  function Element(header: Option<Header>): Option<Code> {
    if header.Some? then Some(header.value.code) else None
  }

  lemma TypeOfPut(code: Code, v: Value)
    requires Encode(code, v).Ok?
    ensures TypeOf(Encode(code, v).value) == if code == STRING && !IsText(v) then BINARY else code
  {
  }

  lemma ElementRoundTrip(header: Option<Header>, v: Value)
    ensures
      var code := ElementCode(header, v);
      FitsElement(header, v) <==>
        && PutThenGet(code, v).Ok?
        && (header.Some? ==> TypeOf(Encode(code, v).value) == code)
  {
    var code := ElementCode(header, v);
    ValueRoundTrip(code, v);
    if Encode(code, v).Ok? { TypeOfPut(code, v); }
  }

  lemma {:induction false} ElementsRoundTrip(header: Option<Header>, vs: seq<Value>, k: nat, n: Node, first: nat)
    requires k <= |vs| && first <= |n.children|
    requires EncodeElements(header, vs, k).Ok? && EncodeElements(header, vs, k).value <= n.children[first..]
    ensures |EncodeElements(header, vs, k).value| == k
    ensures DecodeElements(n, first, k, Element(header)).Ok? <==> FitsElements(header, vs, k)
    ensures FitsElements(header, vs, k) ==>
      DecodeElements(n, first, k, Element(header)) == Ok(NormElements(header, vs)[..k])
    decreases k
  {
    if k == 0 {
    } else {
      var v := vs[k - 1];
      var code := ElementCode(header, v);
      ElementsRoundTrip(header, vs, k - 1, n, first);
      ElementRoundTrip(header, v);
      ValueRoundTrip(code, v);
      FitsOneElementMore(header, vs, k);
      assert n.children[first + k - 1] == n.children[first..][k - 1] == Encode(code, v).value;
      NormOneElementMore(header, vs, k);
    }
  }

  lemma FitsOneElementMore(header: Option<Header>, vs: seq<Value>, k: nat)
    requires 0 < k <= |vs|
    ensures FitsElements(header, vs, k) <==> FitsElements(header, vs, k - 1) && FitsElement(header, vs[k - 1])
  {
  }

  lemma NormOneElementMore(header: Option<Header>, vs: seq<Value>, k: nat)
    requires 0 < k <= |vs|
    ensures
      var norms := NormElements(header, vs);
      norms[..k] == norms[..k - 1] + [Norm(ElementCode(header, vs[k - 1]), vs[k - 1])]
  {
    var norms := NormElements(header, vs);
    assert norms[k - 1] == Norm(ElementCode(header, vs[k - 1]), vs[k - 1]);
  }

  lemma {:induction false} ElementsUnput(header: Option<Header>, vs: seq<Value>, k: nat)
    requires k <= |vs| && EncodeElements(header, vs, k).Err?
    ensures !FitsElements(header, vs, k)
  {
    if EncodeElements(header, vs, k - 1).Err? {
      ElementsUnput(header, vs, k - 1);
    } else {
      ElementRoundTrip(header, vs[k - 1]);
    }
  }

  /** A descriptor has to be a string. Nil, which SYMBOL would take, means that there is none. */
  predicate FitsHeader(header: Option<Header>) {
    header.Some? ==> header.value.descriptor.Nil? || Fits(SYMBOL, header.value.descriptor)
  }

  /** It comes back as the string that is read from a symbol. */
  function NormHeader(header: Option<Header>): Option<Header> {
    if header.None? || header.value.descriptor.Nil? then header
    else Some(header.value.(descriptor := Norm(SYMBOL, header.value.descriptor)))
  }

  /** ArrayHeader#==, where == of two strings is eql?. */
  predicate SameHeader(header: Option<Header>, that: Option<Header>) {
    if header.None? || that.None? then header == that
    else
      && header.value.code == that.value.code
      && (header.value.descriptor == that.value.descriptor || Eql(header.value.descriptor, that.value.descriptor))
  }

  /** Whether the bytes of the descriptor, which a symbol gives back as ASCII-8BIT, are the same string in that
      encoding. */
  predicate KeepsDescriptor(header: Option<Header>) {
    header.Some? && header.value.descriptor.Str? ==>
      IsAscii(header.value.descriptor.bytes) || header.value.descriptor.binary
  }

  /** Reading an array with the datum and the descriptor of `header` gives that header, as it comes back, and reads the
      other nodes. */
  lemma DecodeArrayOf(header: Option<Header>, n: Node, prefix: seq<Node>, nodes: seq<Node>)
    requires DescriptorOf(header) == Ok(prefix) && n == Node(ArrayDatumOf(header), prefix + nodes)
    ensures
      var r := DecodeElements(n, |prefix|, |nodes|, Element(header));
      Decode(n) == if r.Ok? then Ok(Arr(NormHeader(header), r.value)) else Err(r.error)
  {
    if header.None? {
      assert n.children == nodes;
      DecodeListNode(n);
    } else {
      DecodeHeaderOf(header.value, n, prefix, nodes);
    }
  }

  lemma DecodeHeaderOf(h: Header, n: Node, prefix: seq<Node>, nodes: seq<Node>)
    requires DescriptorOf(Some(h)) == Ok(prefix) && n == Node(ArrayDatumOf(Some(h)), prefix + nodes)
    ensures
      var r := DecodeElements(n, |prefix|, |nodes|, Some(h.code));
      Decode(n) == if r.Ok? then Ok(Arr(NormHeader(Some(h)), r.value)) else Err(r.error)
  {
    DescriptorComesBack(h, n, prefix);
    DecodeArrayNode(n, |prefix|, |nodes|);
  }

  lemma DescriptorComesBack(h: Header, n: Node, prefix: seq<Node>)
    requires DescriptorOf(Some(h)) == Ok(prefix) && prefix <= n.children
    ensures |prefix| == if h.descriptor.Nil? then 0 else 1
    ensures NormHeader(Some(h)) == Some(Header(h.code, if h.descriptor.Nil? then Nil else SymbolAt(n)))
  {
    if !h.descriptor.Nil? { assert n.children[0] == prefix[0]; }
  }

  /** The round trip of arrays: a list or a described or plain AMQP array of any length comes back exactly if its
      descriptor and every element fit, with as many elements, each normalised; the descriptor is not one of them. */
  lemma ArrayRoundTrip(v: Value)
    requires v.Arr?
    ensures
      var fits := FitsHeader(v.header) && FitsElements(v.header, v.elements, |v.elements|);
      match EncodeArray(v)
      case Err(_) => !fits
      case Ok(n) =>
        && (Decode(n).Ok? <==> fits)
        && (fits ==> Decode(n) == Ok(Arr(NormHeader(v.header), NormElements(v.header, v.elements))))
  {
    var k := |v.elements|;
    if FitsHeader(v.header) {
      var prefix := DescriptorOf(v.header).value;
      match EncodeElements(v.header, v.elements, k)
      case Err(_) => ElementsUnput(v.header, v.elements, k);
      case Ok(nodes) =>
        var n := EncodeArray(v).value;
        assert n.children[|prefix|..] == nodes;
        DecodeArrayOf(v.header, n, prefix, nodes);
        ElementsRoundTrip(v.header, v.elements, k, n, |prefix|);
        assert NormElements(v.header, v.elements)[..k] == NormElements(v.header, v.elements);
    }
  }

  /** An array that fits comes back with an equal header exactly if it is not described, or its descriptor is an ASCII
      string or one of the encoding ASCII-8BIT. */
  lemma HeaderComesBackIff(v: Value)
    requires v.Arr? && FitsHeader(v.header) && FitsElements(v.header, v.elements, |v.elements|)
    ensures EncodeArray(v).Ok? && Decode(EncodeArray(v).value).Ok? && Decode(EncodeArray(v).value).value.Arr?
    ensures SameHeader(v.header, Decode(EncodeArray(v).value).value.header) <==> KeepsDescriptor(v.header)
  {
    ArrayRoundTrip(v);
  }
}
