/** What put makes of a Ruby value and what get makes of a node, by the mappings of lib/codec/mapping.rb. */
module Codec {
  import opened Wrappers
  import opened Values
  import opened Cursors
  import opened Bindings

  /** Mapping.for_class of the value's class. */
  function ForClass(v: Value): Code {
    match v
    case Nil => NULL
    case Bool(_) => BOOL
    case Int(_) => WHOLE(Long)
    case Float(_) => DOUBLE
    case Time(_) => WHOLE(Timestamp)
    case Str(_, _, _) => STRING
    case Sym(_) => STRING
    case Hash(_) => MAP
    case Arr(_, _) => LIST
    case Described(_, _) => DESCRIBED
  }

  // ----- Put.

  /** What `value < 0` raises for a value that is no number. */
  function ComparisonFailure(v: Value): Failure {
    match v
    case Str(_, _, _) => ArgumentFailure
    case Sym(_) => ArgumentFailure
    case Time(_) => ArgumentFailure
    case Bool(_) => NoMethodFailure
    case Arr(_, _) => NoMethodFailure
    case Described(_, _) => NoMethodFailure
    case _ => TypeFailure
  }

  /** The setters of the integer types. uint= and ulong= refuse nil and what is negative, timestamp= takes the seconds
      of a time; the rest is up to the binding. */
  function PutWhole(w: Width, v: Value): Result<Node, Failure> {
    var checked := w == UInt || w == ULong;
    if checked && ((v.Int? && v.n < 0) || (v.Float? && v.x < 0.0)) then Err(RangeFailure)
    else if v.Int? || (w == Timestamp && v.Time?) then
      (match AsWhole(w, if v.Int? then v.n else v.at.Floor)
       case Ok(n) => Ok(Node(WholeDatum(w, n), []))
       case Err(e) => Err(e))
    else if checked && !v.Float? then Err(ComparisonFailure(v))
    else Err(TypeFailure)
  }

  /** bool= takes C integers too. */
  function PutBool(v: Value): Result<Node, Failure> {
    if v.Bool? then Ok(Node(BoolDatum(v.b), []))
    else if v.Int? && InRange(Int32, v.n) then Ok(Node(BoolDatum(v.n != 0), []))
    else Err(TypeFailure)
  }

  /** binary= and symbol= take nil as empty. Any other value that is no string they read as one. */
  function AsBytes(v: Value): Result<Bytes, Failure> {
    if v.Str? then Ok(v.bytes) else if v.Nil? then Ok([]) else Err(Undefined)
  }

  /** Whether STRING.put sends a string as text rather than as binary data. A symbol has become a string. */
  predicate IsText(v: Value)
    requires v.Str? || v.Sym?
  {
    match v
    case Str(s, class_, binary) => class_ == UTFString || (!binary && IsUtf8(s))
    case Sym(s) => IsUtf8(s)
  }

  function Text(v: Value): Bytes
    requires v.Str? || v.Sym?
  {
    if v.Str? then v.bytes else v.name
  }

  /** STRING.put */
  function PutString(v: Value): Result<Node, Failure> {
    if !v.Str? && !v.Sym? then Err(NoMethodFailure)
    else Ok(Node(if IsText(v) then StringDatum(Text(v)) else BinaryDatum(Text(v)), []))
  }

  /** The node that mapping.put adds for a value. list=, array= and described= do not exist. */
  function Encode(code: Code, v: Value): Result<Node, Failure>
    decreases v, 2, 0
  {
    match code
    case NULL => Ok(Node(NullDatum, []))
    case BOOL => PutBool(v)
    case WHOLE(w) => PutWhole(w, v)
    case DOUBLE =>
      if v.Float? then Ok(Node(DoubleDatum(v.x), []))
      else if v.Int? then Ok(Node(DoubleDatum(v.n as real), []))
      else Err(TypeFailure)
    case BINARY =>
      (match AsBytes(v)
       case Ok(s) => Ok(Node(BinaryDatum(s), []))
       case Err(e) => Err(e))
    case STRING => PutString(v)
    case SYMBOL =>
      (match AsBytes(v)
       case Ok(s) => Ok(Node(SymbolDatum(s), []))
       case Err(e) => Err(e))
    case MAP => EncodeMap(v, false)
    case _ => Err(NoMethodFailure)
  }

  /** The mapping a key is put with: SYMBOL under the option :keys => :SYMBOL, else the one of its class. */
  function KeyCode(k: Value, symbols: bool): Code {
    if symbols then SYMBOL else ForClass(k)
  }

  function EncodeMap(v: Value, symbols: bool): Result<Node, Failure>
    decreases v, 1, 0
  {
    if !v.Hash? then Err(NoMethodFailure)
    else
      match EncodePairs(v, |v.entries|, symbols)
      case Ok(children) => Ok(Node(MapDatum, children))
      case Err(e) => Err(e)
  }

  /** The nodes of the first `k` pairs, key and value in turn, or the first failure. */
  function EncodePairs(v: Value, k: nat, symbols: bool): Result<seq<Node>, Failure>
    requires v.Hash? && k <= |v.entries|
    decreases v, 0, k
  {
    if k == 0 then Ok([])
    else
      match EncodePairs(v, k - 1, symbols)
      case Err(e) => Err(e)
      case Ok(before) =>
        var pair := v.entries[k - 1];
        match Encode(KeyCode(pair.key, symbols), pair.key)
        case Err(e) => Err(e)
        case Ok(key) =>
          match Encode(ForClass(pair.value), pair.value)
          case Err(e) => Err(e)
          case Ok(value) => Ok(before + [key, value])
  }

  /** The mapping an element is put with: the one in the header of an AMQP array, else the one of its class. */
  function ElementCode(header: Option<Header>, v: Value): Code {
    if header.Some? then header.value.code else ForClass(v)
  }

  /** The nodes of the first `k` elements of an array. */
  function EncodeElements(header: Option<Header>, vs: seq<Value>, k: nat): Result<seq<Node>, Failure>
    requires k <= |vs|
  {
    if k == 0 then Ok([])
    else
      match EncodeElements(header, vs, k - 1)
      case Err(e) => Err(e)
      case Ok(before) =>
        match Encode(ElementCode(header, vs[k - 1]), vs[k - 1])
        case Err(e) => Err(e)
        case Ok(node) => Ok(before + [node])
  }

  /** The datum of an array. */
  function ArrayDatumOf(header: Option<Header>): Datum {
    match header
    case None => ListDatum
    case Some(h) => ArrayDatum(!h.descriptor.Nil?, h.code)
  }

  /** The node of its descriptor, if it is described: data.symbol = descriptor. */
  function DescriptorOf(header: Option<Header>): Result<seq<Node>, Failure> {
    if header.None? || header.value.descriptor.Nil? then Ok([])
    else
      match Encode(SYMBOL, header.value.descriptor)
      case Ok(n) => Ok([n])
      case Err(e) => Err(e)
  }

  /** Array#proton_put: a list, or an AMQP array if there is a header. */
  function EncodeArray(v: Value): Result<Node, Failure>
    requires v.Arr?
  {
    match DescriptorOf(v.header)
    case Err(e) => Err(e)
    case Ok(prefix) =>
      match EncodeElements(v.header, v.elements, |v.elements|)
      case Err(e) => Err(e)
      case Ok(nodes) => Ok(Node(ArrayDatumOf(v.header), prefix + nodes))
  }

  // ----- Get.

  /** Data#string makes a UTFString, which refuses bytes that are not UTF-8. */
  function GetString(s: Bytes): Result<Value, Failure> {
    if IsUtf8(s) then Ok(Str(s, UTFString, false)) else Err(RuntimeFailure)
  }

  /** The value that type.get reads from a node. The getter of NULL is `nil?`, which asks the Data object itself. */
  function Decode(n: Node): Result<Value, Failure>
    decreases n, 1, 0
  {
    match n.datum
    case NullDatum => Ok(Bool(false))
    case BoolDatum(b) => Ok(Bool(b))
    case WholeDatum(_, i) => Ok(Int(i))
    case DoubleDatum(x) => Ok(Float(x))
    case BinaryDatum(s) => Ok(Str(s, BinaryString, true))
    case StringDatum(s) => GetString(s)
    case SymbolDatum(_) => Ok(GetSymbol(n.datum))
    case MapDatum =>
      (match DecodePairs(n, |n.children| / 2)
       case Ok(entries) => Ok(Hash(entries))
       case Err(e) => Err(e))
    case ListDatum =>
      (match DecodeElements(n, 0, |n.children|, None)
       case Ok(vs) => Ok(Arr(None, vs))
       case Err(e) => Err(e))
    case ArrayDatum(described, element) =>
      var header := Header(element, if described then SymbolAt(n) else Nil);
      var first := if described && n.children != [] then 1 else 0;
      (match DecodeElements(n, first, |n.children| - first, Some(element))
       case Ok(vs) => Ok(Arr(Some(header), vs))
       case Err(e) => Err(e))
    case DescribedDatum => DecodeDescribed(n)
  }

  /** Data#symbol: the bytes of a symbol, none of any other node. */
  function GetSymbol(d: Datum): Value {
    Str(if d.SymbolDatum? then d.bytes else [], PlainString, true)
  }

  /** What it reads at the first child. */
  function SymbolAt(n: Node): Value {
    if n.children == [] then Str([], PlainString, true) else GetSymbol(n.children[0].datum)
  }

  /** The hash after the first `k` pairs. */
  function DecodePairs(n: Node, k: nat): Result<seq<Entry>, Failure>
    requires 2 * k <= |n.children|
    decreases n, 0, k
  {
    if k == 0 then Ok([])
    else
      match DecodePairs(n, k - 1)
      case Err(e) => Err(e)
      case Ok(before) =>
        match Decode(n.children[2 * k - 2])
        case Err(e) => Err(e)
        case Ok(key) =>
          match Decode(n.children[2 * k - 1])
          case Err(e) => Err(e)
          case Ok(value) => Ok(Store(before, key, value))
  }

  /** The `k` elements from child `first` on; in an AMQP array each has to be of the element type. */
  function DecodeElements(n: Node, first: nat, k: nat, element: Option<Code>): Result<seq<Value>, Failure>
    requires first + k <= |n.children|
    decreases n, 0, k
  {
    if k == 0 then Ok([])
    else
      match DecodeElements(n, first, k - 1, element)
      case Err(e) => Err(e)
      case Ok(before) =>
        var child := n.children[first + k - 1];
        if element.Some? && TypeOf(child) != element.value then Err(TypeFailure)
        else
          match Decode(child)
          case Err(e) => Err(e)
          case Ok(v) => Ok(before + [v])
  }

  /** get_described: with one child, next stays on it, and it is read twice; with none there is no type to read. */
  function DecodeDescribed(n: Node): Result<Value, Failure>
    decreases n, 0, 0
  {
    if n.children == [] then Err(NoMethodFailure)
    else
      match Decode(n.children[0])
      case Err(e) => Err(e)
      case Ok(d) =>
        match Decode(n.children[if |n.children| > 1 then 1 else 0])
        case Err(e) => Err(e)
        case Ok(v) => Ok(Described(d, v))
  }

  // ----- Reading a map and an array, in terms of their children.

  lemma DecodeMapNode(n: Node, half: nat)
    requires n.datum.MapDatum? && half == |n.children| / 2
    ensures DecodePairs(n, half).Err? ==> Decode(n) == Err(DecodePairs(n, half).error)
    ensures DecodePairs(n, half).Ok? ==> Decode(n) == Ok(Hash(DecodePairs(n, half).value))
  {
  }

  lemma DecodeListNode(n: Node)
    requires n.datum.ListDatum?
    ensures
      var r := DecodeElements(n, 0, |n.children|, None);
      Decode(n) == if r.Ok? then Ok(Arr(None, r.value)) else Err(r.error)
  {
  }

  lemma DecodeArrayNode(n: Node, first: nat, size: nat)
    requires n.datum.ArrayDatum? && first == (if n.datum.described && n.children != [] then 1 else 0)
    requires first + size == |n.children|
    ensures
      var r := DecodeElements(n, first, size, Some(n.datum.element));
      var header := Header(n.datum.element, if n.datum.described then SymbolAt(n) else Nil);
      Decode(n) == if r.Ok? then Ok(Arr(Some(header), r.value)) else Err(r.error)
  {
  }
}
