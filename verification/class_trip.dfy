/** What each class of Ruby values comes back as, and how what cannot be put or got is refused. */
module ClassTrips {
  import opened Wrappers
  import opened Values
  import opened Cursors
  import opened Bindings
  import opened Codec
  import opened RoundTrips
  import opened Messages

  const LONG_LIMIT: int := 0x8000_0000_0000_0000

  /** A value put with the mapping of its class and got again: nil becomes false, a time its seconds, a symbol a string.
      A string comes back as text if it is a UTFString, or else if its encoding is not ASCII-8BIT and it is valid; a
      UTFString that is not valid cannot be read. Arrays and described values cannot be put. */
  lemma ComesBackByClass(v: Value)
    ensures
      var r := PutThenGet(ForClass(v), v);
      match v
      case Nil => r == Ok(Bool(false))
      case Bool(b) => r == Ok(Bool(b))
      case Int(n) => r == if -LONG_LIMIT <= n < LONG_LIMIT then Ok(Int(n)) else Err(TypeFailure)
      case Float(x) => r == Ok(Float(x))
      case Time(at) => r == if -LONG_LIMIT <= at.Floor < LONG_LIMIT then Ok(Int(at.Floor)) else Err(TypeFailure)
      case Str(s, class_, binary) =>
        if class_ == UTFString then r == if IsUtf8(s) then Ok(Str(s, UTFString, false)) else Err(RuntimeFailure)
        else r == Ok(if !binary && IsUtf8(s) then Str(s, UTFString, false) else Str(s, BinaryString, true))
      case Sym(s) => r == Ok(if IsUtf8(s) then Str(s, UTFString, false) else Str(s, BinaryString, true))
      case Hash(_) => r.Ok? <==> FitsPairs(v, |v.entries|, false)
      case _ => r == Err(NoMethodFailure)
  {
    ValueRoundTrip(ForClass(v), v);
  }

  /** How an integer is refused by a type that cannot hold it: uint= and ulong= raise a RangeError for what is negative,
      the binding a TypeError for what is beyond its 64 bits and a RangeError for what is beyond the range of the type.
      */
  lemma RefusesIntegers(w: Width, n: int)
    requires !IsPut(w, n)
    ensures
      PutThenGet(WHOLE(w), Int(n)) == Err(
        if (w == UInt || w == ULong) && n < 0 then RangeFailure
        else if n < -LONG_LIMIT || n >= 2 * LONG_LIMIT then TypeFailure
        else if n >= LONG_LIMIT && w in {Byte8, Short, Int32, Long, Timestamp} then TypeFailure
        else RangeFailure)
  {
    TakenAs(w, n);
  }

  /** What else the setters refuse. */
  lemma RefusesOthers(w: Width, name: Bytes)
    ensures PutThenGet(WHOLE(w), Nil) == Err(TypeFailure)
    ensures PutThenGet(WHOLE(w), Bool(true)) == Err(if w == UInt || w == ULong then NoMethodFailure else TypeFailure)
    ensures PutThenGet(WHOLE(w), Sym(name)) == Err(if w == UInt || w == ULong then ArgumentFailure else TypeFailure)
    ensures PutThenGet(STRING, Nil) == Err(NoMethodFailure) && PutThenGet(DOUBLE, Nil) == Err(TypeFailure)
    ensures PutThenGet(MAP, Nil) == Err(NoMethodFailure)
  {
    ValueRoundTrip(MAP, Nil);
  }

  /** A described value is its first child and its second, or its first twice if there is only one; the failure of
      either is raised, and without any child there is no type to read. */
  lemma DescribedIsRead(n: Node)
    requires n.datum == DescribedDatum
    ensures
      if n.children == [] then Decode(n) == Err(NoMethodFailure)
      else
        var second := n.children[if |n.children| == 1 then 0 else 1];
        match Decode(n.children[0])
        case Err(e) => Decode(n) == Err(e)
        case Ok(descriptor) =>
          match Decode(second)
          case Err(e) => Decode(n) == Err(e)
          case Ok(value) => Decode(n) == Ok(Described(descriptor, value))
  {
  }

  /** Under the option for symbol keys a string key comes back as a plain string of the encoding ASCII-8BIT, without it
      as the mapping of its class has it. */
  lemma KeysComeBack(s: Bytes, b: bool)
    requires IsUtf8(s)
    ensures
      var v := Hash([Entry(Str(s, UTFString, false), Bool(b))]);
      && EncodeMap(v, true).Ok? && EncodeMap(v, false).Ok?
      && Decode(EncodeMap(v, true).value) == Ok(Hash([Entry(Str(s, PlainString, true), Bool(b))]))
      && Decode(EncodeMap(v, false).value) == Ok(v)
  {
    var v := Hash([Entry(Str(s, UTFString, false), Bool(b))]);
    OnePairFits(v, true);
    OnePairFits(v, false);
    MapRoundTrip(v, true);
    MapRoundTrip(v, false);
  }

  lemma OnePairFits(v: Value, symbols: bool)
    requires v.Hash? && |v.entries| == 1 && FitsPair(v.entries[0], symbols)
    ensures FitsPairs(v, 1, symbols)
    ensures StoreAll(NormPairs(v, symbols)) == [NormPair(v.entries[0], symbols)]
  {
    var es := NormPairs(v, symbols);
    assert es == [NormPair(v.entries[0], symbols)];
    assert es[..0] == [];
    assert StoreAll([]) == [];
  }

  /** Which strings are one key: those with the same bytes and, unless they are ASCII, the same encoding; a string is
      never one key with a value of another class. */
  lemma StringKeys(s: Bytes, class_: StringClass, binary: bool, v: Value)
    ensures
      var k := Str(s, class_, binary);
      && (v.Str? ==> (Eql(k, v) <==> v.bytes == s && ((forall b :: b in s ==> b < 0x80) || v.binary == binary)))
      && (!v.Str? ==> !Eql(k, v) && !Eql(v, k))
  {
    if forall b :: b in s ==> b < 0x80 {
      assert forall i :: 0 <= i < |s| ==> s[i] in s;
    }
  }

  /** A message whose properties are a hash with pairs that comes back as it is, and with instructions and a body, comes
      back as it was. */
  lemma MessagesComeBack(p: Value, b: bool, x: real)
    requires p.Hash? && p.entries != [] && Fits(MAP, p) && Norm(MAP, p) == p
    ensures SentAndReceived(Fields(p, Bool(b), Nil, Float(x))) == Ok(Fields(p, Bool(b), Nil, Float(x)))
  {
    MessageRoundTrip(Fields(p, Bool(b), Nil, Float(x)));
  }

  /** Without any field it has four empty sections. Properties that have no empty? are refused, and annotations that are
      no hash; the properties are the first to be refused. */
  lemma MessagesWithoutFields(n: int)
    ensures PreEncoded(Fields(Hash([]), Nil, Nil, Nil)) == Ok(Sections([], [], [], []))
    ensures PreEncoded(Fields(Int(n), Nil, Nil, Nil)) == Err(NoMethodFailure)
    ensures PreEncoded(Fields(Hash([]), Nil, Int(n), Nil)) == Err(ArgumentFailure)
    ensures PreEncoded(Fields(Int(n), Nil, Int(n), Nil)) == Err(NoMethodFailure)
    ensures PreEncoded(Fields(Hash([]), Nil, Int(n), Arr(None, []))) == Err(ArgumentFailure)
  {
  }
}
