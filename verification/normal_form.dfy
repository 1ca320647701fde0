/** Which values a round trip leaves as they are, and what it loses of the others. */
module NormalForms {
  import opened Wrappers
  import opened Values
  import opened Cursors
  import opened Bindings
  import opened Codec
  import opened RoundTrips

  /** The values that get can give for scalars and maps of them: no nil, no symbol, no time, a UTFString that is text
      or a BinaryString that is not encoded, and hashes of such values with no two keys alike. */
  predicate Canonical(v: Value) {
    match v
    case Bool(_) => true
    case Int(n) => InRange(Long, n)
    case Float(_) => true
    case Str(s, class_, binary) => (class_ == UTFString && !binary && IsUtf8(s)) || (class_ == BinaryString && binary)
    case Hash(es) =>
      && (forall i, j :: 0 <= i < j < |es| ==> !Eql(es[i].key, es[j].key))
      && forall i :: 0 <= i < |es| ==> Canonical(es[i].key) && Canonical(es[i].value)
    case _ => false
  }

  predicate AllCanonical(es: seq<Entry>) {
    forall i :: 0 <= i < |es| ==> Canonical(es[i].key) && Canonical(es[i].value)
  }

  lemma {:induction false} CanonicalUnchanged(v: Value)
    requires Canonical(v)
    ensures Fits(ForClass(v), v) && Norm(ForClass(v), v) == v
    decreases v
  {
    if v.Hash? {
      var es := v.entries;
      forall i | 0 <= i < |es| ensures FitsPair(es[i], false) && NormPair(es[i], false) == es[i] {
        CanonicalUnchanged(es[i].key);
        CanonicalUnchanged(es[i].value);
      }
      assert NormPairs(v, false) == es;
      DistinctStoreAsIs(es);
    }
  }

  lemma {:induction false} StoreAllCanonical(es: seq<Entry>)
    requires AllCanonical(es)
    ensures AllCanonical(StoreAll(es))
  {
    if es == [] {
    } else {
      StoreAllCanonical(es[..|es| - 1]);
    }
  }

  lemma {:induction false} NormIsCanonical(v: Value)
    requires Fits(ForClass(v), v)
    ensures Canonical(Norm(ForClass(v), v))
    decreases v
  {
    if v.Hash? {
      var es := NormPairs(v, false);
      forall i | 0 <= i < |es| ensures Canonical(es[i].key) && Canonical(es[i].value) {
        assert FitsPair(v.entries[i], false) && es[i] == NormPair(v.entries[i], false);
        NormIsCanonical(v.entries[i].key);
        NormIsCanonical(v.entries[i].value);
      }
      StoreAllCanonical(es);
      LastPairWins(es, Nil);
    }
  }

  /** A value comes back as it was exactly if it is canonical. */
  lemma UnchangedIffCanonical(v: Value)
    ensures PutThenGet(ForClass(v), v) == Ok(v) <==> Canonical(v)
  {
    ValueRoundTrip(ForClass(v), v);
    if Canonical(v) { CanonicalUnchanged(v); }
    if Fits(ForClass(v), v) { NormIsCanonical(v); }
  }

  /** What has made the trip once makes it again unchanged. */
  lemma SecondTripChangesNothing(v: Value)
    requires PutThenGet(ForClass(v), v).Ok?
    ensures var w := PutThenGet(ForClass(v), v).value; PutThenGet(ForClass(w), w) == Ok(w)
  {
    ValueRoundTrip(ForClass(v), v);
    NormIsCanonical(v);
    UnchangedIffCanonical(Norm(ForClass(v), v));
  }

  lemma {:induction false} FirstKeysOfDistinct(es: seq<Entry>)
    ensures |FirstKeys(es)| <= |es|
    ensures |FirstKeys(es)| == |es| <==> DistinctKeys(es)
  {
    if es == [] {
    } else {
      var init, k := es[..|es| - 1], es[|es| - 1].key;
      FirstKeysOfDistinct(init);
      DistinctOneMore(init, es[|es| - 1]);
      assert es == init + [es[|es| - 1]];
    }
  }

  lemma DistinctOneMore(es: seq<Entry>, e: Entry)
    ensures DistinctKeys(es + [e]) <==> DistinctKeys(es) && Find(es, e.key) == |es|
  {
    var all := es + [e];
    if DistinctKeys(all) {
      forall i, j | 0 <= i < j < |es| ensures !Eql(es[i].key, es[j].key) { assert !Eql(all[i].key, all[j].key); }
      forall i | 0 <= i < |es| ensures !Eql(es[i].key, e.key) { assert !Eql(all[i].key, all[|es|].key); }
      assert Find(es, e.key) == |es|;
    }
  }

  /** What a hash that fits has become: every key finds the value of the last pair whose normalised key is eql to it,
      the keys are the first of each kind in order, and a pair is lost exactly if two normalised keys are eql. */
  lemma MapComesBackMerged(v: Value, q: Value)
    requires v.Hash? && Fits(MAP, v)
    ensures PutThenGet(MAP, v).Ok? && PutThenGet(MAP, v).value.Hash?
    ensures
      var es, pairs := PutThenGet(MAP, v).value.entries, NormPairs(v, false);
      && Lookup(es, q) == LastValue(pairs, q)
      && Keys(es) == FirstKeys(pairs)
      && (|es| == |v.entries| <==> DistinctKeys(pairs))
  {
    ValueRoundTrip(MAP, v);
    var pairs := NormPairs(v, false);
    LastPairWins(pairs, q);
    KeysComeInOrder(pairs);
    FirstKeysOfDistinct(pairs);
  }

  // ----- Arrays.

  function ArrayPutThenGet(v: Value): Result<Value, Failure>
    requires v.Arr?
  {
    match EncodeArray(v)
    case Ok(n) => Decode(n)
    case Err(e) => Err(e)
  }

  lemma NormElementAgain(header: Option<Header>, v: Value)
    requires FitsElement(header, v)
    ensures
      var w, again := Norm(ElementCode(header, v), v), NormHeader(header);
      FitsElement(again, w) && Norm(ElementCode(again, w), w) == w
  {
    var code := ElementCode(header, v);
    if header.None? || code == MAP {
      assert code == MAP ==> ForClass(v) == MAP;
      NormIsCanonical(v);
      CanonicalUnchanged(Norm(code, v));
    }
  }

  /** An array that has made the trip makes it again unchanged, header included: whatever its descriptor was, the one
      that came back is kept. */
  lemma ArraySecondTripChangesNothing(v: Value)
    requires v.Arr? && ArrayPutThenGet(v).Ok?
    ensures ArrayPutThenGet(v).value.Arr?
    ensures
      var w := ArrayPutThenGet(v).value;
      w.header == NormHeader(v.header) && KeepsDescriptor(w.header) && ArrayPutThenGet(w) == Ok(w)
  {
    ArrayRoundTrip(v);
    var w := ArrayPutThenGet(v).value;
    forall i | 0 <= i < |w.elements|
      ensures FitsElement(w.header, w.elements[i])
      ensures Norm(ElementCode(w.header, w.elements[i]), w.elements[i]) == w.elements[i]
    {
      NormElementAgain(v.header, v.elements[i]);
    }
    ArrayRoundTrip(w);
    assert NormElements(w.header, w.elements) == w.elements;
  }

  // ----- Where it does not.

  /** A hash is not always what it was: nil and false become one key, and so do a symbol and its name. */
  lemma KeysCollide(name: Bytes)
    requires IsUtf8(name)
    ensures
      var text := Str(name, UTFString, false);
      var v := Hash([Entry(Sym(name), Int(1)), Entry(text, Int(2))]);
      DistinctKeys(v.entries) && PutThenGet(MAP, v) == Ok(Hash([Entry(text, Int(2))]))
    ensures
      var v := Hash([Entry(Nil, Int(1)), Entry(Bool(false), Int(2))]);
      DistinctKeys(v.entries) && PutThenGet(MAP, v) == Ok(Hash([Entry(Bool(false), Int(2))]))
  {
    var text := Str(name, UTFString, false);
    Collide(Sym(name), text, text);
    Collide(Nil, Bool(false), Bool(false));
  }

  lemma StoredTwice(k: Value, v: Value, w: Value)
    requires Eql(k, k)
    ensures StoreAll([Entry(k, v), Entry(k, w)]) == [Entry(k, w)]
  {
    var pairs := [Entry(k, v), Entry(k, w)];
    assert pairs[..1] == [Entry(k, v)] && pairs[..1][..0] == [];
    assert StoreAll(pairs[..1]) == [Entry(k, v)];
  }

  lemma Collide(a: Value, b: Value, k: Value)
    requires Fits(ForClass(a), a) && Fits(ForClass(b), b)
    requires Norm(ForClass(a), a) == k == Norm(ForClass(b), b) && Eql(k, k)
    ensures PutThenGet(MAP, Hash([Entry(a, Int(1)), Entry(b, Int(2))])) == Ok(Hash([Entry(k, Int(2))]))
  {
    var v := Hash([Entry(a, Int(1)), Entry(b, Int(2))]);
    assert FitsPair(v.entries[0], false) && FitsPair(v.entries[1], false);
    assert FitsPairs(v, 2, false);
    ValueRoundTrip(MAP, v);
    var pairs := NormPairs(v, false);
    assert pairs == [NormPair(v.entries[0], false), NormPair(v.entries[1], false)];
    assert pairs == [Entry(k, Int(1)), Entry(k, Int(2))];
    StoredTwice(k, Int(1), Int(2));
  }

  /** A BinaryString is meant for arbitrary data, but it comes back as one exactly if its encoding is not UTF-8 or its
      bytes are not. */
  lemma StaysBinaryIff(v: Value)
    requires v.Str? && v.class_ == BinaryString
    ensures PutThenGet(ForClass(v), v) == Ok(Str(v.bytes, BinaryString, true)) <==> v.binary || !IsUtf8(v.bytes)
    ensures !v.binary && IsUtf8(v.bytes) ==> PutThenGet(ForClass(v), v) == Ok(Str(v.bytes, UTFString, false))
  {
    ValueRoundTrip(ForClass(v), v);
  }

  /** A list or an array inside a list or a map cannot be put, whatever it holds and wherever it stands: among the
      elements of a list, or as a key or a value. */
  lemma NestedListIsRefused(v: Value, i: nat)
    ensures v.Arr? ==> PutThenGet(ForClass(v), v) == Err(NoMethodFailure)
    ensures v.Arr? && v.header.None? && i < |v.elements| && v.elements[i].Arr? ==> ArrayPutThenGet(v).Err?
    ensures v.Hash? && i < |v.entries| && (v.entries[i].key.Arr? || v.entries[i].value.Arr?) ==> PutThenGet(MAP, v).Err?
  {
    if v.Arr? {
      ArrayRoundTrip(v);
      assert v.header.None? && i < |v.elements| && v.elements[i].Arr? ==> !FitsElement(v.header, v.elements[i]);
    } else if v.Hash? {
      ValueRoundTrip(MAP, v);
      if i < |v.entries| && (v.entries[i].key.Arr? || v.entries[i].value.Arr?) {
        assert !FitsPair(v.entries[i], false);
      }
    }
  }

  /** Of the element types of an AMQP array only null takes an array, and makes false of it. All others refuse it but
      binary and symbol, which read it as the string it is not. */
  lemma OnlyNullTakesArrays(code: Code, v: Value)
    requires v.Arr?
    ensures PutThenGet(code, v).Ok? <==> code == NULL
    ensures PutThenGet(NULL, v) == Ok(Bool(false))
    ensures PutThenGet(code, v) == Err(Undefined) <==> code == BINARY || code == SYMBOL
  {
    ValueRoundTrip(code, v);
    ValueRoundTrip(NULL, v);
    if code == MAP { assert Encode(code, v) == EncodeMap(v, false); }
  }

  /** An AMQP array of one of the integer types comes back with equal elements exactly if each is in the range of the
      type: of what can be put as uint, int or char, what lies beyond it is cut to 32 bits without a word. */
  lemma WholesComeBackIffInRange(w: Width, ns: seq<int>, descriptor: Value)
    requires descriptor.Nil? || descriptor.Str?
    requires forall i :: 0 <= i < |ns| ==> IsPut(w, ns[i])
    ensures
      var v := Arr(Some(Header(WHOLE(w), descriptor)), Ints(ns));
      && ArrayPutThenGet(v).Ok? && ArrayPutThenGet(v).value.Arr?
      && (ArrayPutThenGet(v).value.elements == v.elements <==> forall i :: 0 <= i < |ns| ==> InRange(w, ns[i]))
  {
    var v := Arr(Some(Header(WHOLE(w), descriptor)), Ints(ns));
    forall i | 0 <= i < |ns|
      ensures FitsElement(v.header, v.elements[i])
      ensures NormElements(v.header, v.elements)[i] == v.elements[i] <==> InRange(w, ns[i])
    {
      HeldIsTaken(w, ns[i]);
    }
    ArrayRoundTrip(v);
    assert ArrayPutThenGet(v).value.elements == NormElements(v.header, v.elements);
  }

  function Ints(ns: seq<int>): (vs: seq<Value>)
    ensures |vs| == |ns| && forall i :: 0 <= i < |ns| ==> vs[i] == Int(ns[i])
  {
    seq(|ns|, i requires 0 <= i < |ns| => Int(ns[i]))
  }

  /** Inputs that are changed without a word: 2^32 + 5 among uints, nil as a symbol, a number among booleans. */
  lemma NumbersAndNilAreChanged()
    ensures ArrayPutThenGet(Arr(Some(Header(WHOLE(UInt), Nil)), Ints([WORD + 5])))
         == Ok(Arr(Some(Header(WHOLE(UInt), Nil)), Ints([5])))
    ensures PutThenGet(SYMBOL, Nil) == Ok(Str([], PlainString, true))
    ensures PutThenGet(BOOL, Int(1)) == Ok(Bool(true))
  {
    var v := Arr(Some(Header(WHOLE(UInt), Nil)), Ints([WORD + 5]));
    assert FitsElement(v.header, v.elements[0]);
    ArrayRoundTrip(v);
    assert NormElements(v.header, v.elements) == Ints([5]);
    ValueRoundTrip(SYMBOL, Nil);
    ValueRoundTrip(BOOL, Int(1));
  }
}
