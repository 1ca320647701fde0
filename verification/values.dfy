/** Ruby values as lib/codec and lib/types see them, and what Ruby calls equal when it looks up a hash key. */
module Values {
  import opened Wrappers

  type Byte = b: int | 0 <= b < 256

  type Bytes = seq<Byte>

  predicate IsAscii(s: Bytes) {
    forall i :: 0 <= i < |s| ==> s[i] < 0x80
  }

  predicate Continues(s: Bytes, from: nat, count: nat) {
    from + count <= |s| && forall i :: from <= i < from + count ==> 0x80 <= s[i] <= 0xBF
  }

  /** The length of the UTF-8 character `s` starts with, 0 if it does not start with one (section 4 of RFC 3629). */
  function CharLength(s: Bytes): (n: nat)
    ensures n <= |s|
  {
    if s == [] then 0
    else if s[0] < 0x80 then 1
    else if 0xC2 <= s[0] <= 0xDF && Continues(s, 1, 1) then 2
    else if 0xE0 <= s[0] <= 0xEF && Continues(s, 1, 2)
      && (s[0] == 0xE0 ==> s[1] >= 0xA0) && (s[0] == 0xED ==> s[1] <= 0x9F) then 3
    else if 0xF0 <= s[0] <= 0xF4 && Continues(s, 1, 3)
      && (s[0] == 0xF0 ==> s[1] >= 0x90) && (s[0] == 0xF4 ==> s[1] <= 0x8F) then 4
    else 0
  }

  /** String#valid_encoding? of a UTF-8 string. */
  predicate IsUtf8(s: Bytes) {
    s == [] || (CharLength(s) > 0 && IsUtf8(s[CharLength(s)..]))
  }

  datatype StringClass = PlainString | UTFString | BinaryString

  /** The integer types of AMQP that a Ruby integer can be put as. */
  datatype Width = UByte | Byte8 | UShort | Short | UInt | Int32 | Char | ULong | Long | Timestamp

  predicate InRange(w: Width, n: int) {
    match w
    case UByte => 0 <= n < 0x100
    case Byte8 => -0x80 <= n < 0x80
    case UShort => 0 <= n < 0x1_0000
    case Short => -0x8000 <= n < 0x8000
    case UInt => 0 <= n < 0x1_0000_0000
    case Int32 => -0x8000_0000 <= n < 0x8000_0000
    case Char => 0 <= n < 0x1_0000_0000
    case ULong => 0 <= n < 0x1_0000_0000_0000_0000
    case _ => -0x8000_0000_0000_0000 <= n < 0x8000_0000_0000_0000
  }

  /** The exceptions that puts and gets raise. Undefined is none of them: the binding has taken a value that is no
      string for one, and nothing is claimed of what it does then. */
  datatype Failure =
    TypeFailure | RangeFailure | RuntimeFailure | NoMethodFailure | ArgumentFailure | Undefined

  /** The mappings of lib/codec/mapping.rb. */
  datatype Code =
    | NULL | BOOL | WHOLE(width: Width) | DOUBLE | BINARY | STRING | SYMBOL | DESCRIBED | ARRAY | LIST | MAP

  /** ArrayHeader: the type of the elements, and the descriptor, nil if the array is not described. */
  datatype Header = Header(code: Code, descriptor: Value)

  datatype Entry = Entry(key: Value, value: Value)

  /** A Ruby value. A string has the encoding ASCII-8BIT if it is `binary`, and UTF-8 otherwise; a hash lists its
      pairs in insertion order; an array may carry a header. */
  datatype Value =
    | Nil
    | Bool(b: bool)
    | Int(n: int)
    | Float(x: real)
    | Time(at: real)
    | Str(bytes: Bytes, class_: StringClass, binary: bool)
    | Sym(name: Bytes)
    | Hash(entries: seq<Entry>)
    | Arr(header: Option<Header>, elements: seq<Value>)
    | Described(descriptor: Value, value: Value)

  /** eql?: the class and, for ASCII, the encoding of a string do not matter, nor does the order of a hash, nor the
      header of an array. Described has no eql? of its own, and two distinct objects are never eql. */
  predicate Eql(a: Value, b: Value)
    decreases a, 1
  {
    match a
    case Str(s, _, binary) => b.Str? && b.bytes == s && (IsAscii(s) || b.binary == binary)
    case Hash(es) =>
      && b.Hash? && |b.entries| == |es|
      && (forall i :: 0 <= i < |es| ==> Meets(es[i], b.entries))
      && (forall j :: 0 <= j < |b.entries| ==> IsMet(a, b.entries[j]))
    case Arr(_, vs) =>
      && b.Arr? && |b.elements| == |vs|
      && forall i :: 0 <= i < |vs| ==> Eql(vs[i], b.elements[i])
    case Described(_, _) => false
    case _ => a == b
  }

  predicate EqlEntry(e: Entry, f: Entry)
    decreases e, 0
  {
    Eql(e.key, f.key) && Eql(e.value, f.value)
  }

  predicate Meets(e: Entry, fs: seq<Entry>)
    decreases e, 1
  {
    exists j :: 0 <= j < |fs| && EqlEntry(e, fs[j])
  }

  predicate IsMet(a: Value, f: Entry)
    requires a.Hash?
    decreases a, 0
  {
    exists i :: 0 <= i < |a.entries| && EqlEntry(a.entries[i], f)
  }

  lemma {:induction false} EqlSymmetric(a: Value, b: Value)
    requires Eql(a, b)
    ensures Eql(b, a)
    decreases a, 1
  {
    match a
    case Hash(es) =>
      forall i | 0 <= i < |es| ensures IsMet(b, es[i]) { MeetsTurned(es[i], b); }
      forall j | 0 <= j < |b.entries| ensures Meets(b.entries[j], es) { IsMetTurned(a, b.entries[j]); }
    case Arr(_, vs) =>
      forall i | 0 <= i < |vs| ensures Eql(b.elements[i], vs[i]) { EqlSymmetric(vs[i], b.elements[i]); }
    case _ =>
  }

  lemma {:induction false} MeetsTurned(e: Entry, b: Value)
    requires b.Hash? && Meets(e, b.entries)
    ensures IsMet(b, e)
    decreases e, 1
  {
    var j :| 0 <= j < |b.entries| && EqlEntry(e, b.entries[j]);
    EqlEntrySymmetric(e, b.entries[j]);
  }

  lemma {:induction false} IsMetTurned(a: Value, f: Entry)
    requires a.Hash? && IsMet(a, f)
    ensures Meets(f, a.entries)
    decreases a, 0
  {
    var i :| 0 <= i < |a.entries| && EqlEntry(a.entries[i], f);
    EqlEntrySymmetric(a.entries[i], f);
  }

  lemma {:induction false} EqlEntrySymmetric(e: Entry, f: Entry)
    requires EqlEntry(e, f)
    ensures EqlEntry(f, e)
    decreases e, 0
  {
    EqlSymmetric(e.key, f.key);
    EqlSymmetric(e.value, f.value);
  }

  lemma {:induction false} EqlTransitive(a: Value, b: Value, c: Value)
    requires Eql(a, b) && Eql(b, c)
    ensures Eql(a, c)
    decreases a, 1
  {
    match a
    case Hash(es) =>
      forall i | 0 <= i < |es| ensures Meets(es[i], c.entries) { MeetsTransitive(es[i], b, c); }
      forall k | 0 <= k < |c.entries| ensures IsMet(a, c.entries[k]) { IsMetTransitive(a, b, c.entries[k]); }
    case Arr(_, vs) =>
      forall i | 0 <= i < |vs| ensures Eql(vs[i], c.elements[i]) { EqlTransitive(vs[i], b.elements[i], c.elements[i]); }
    case _ =>
  }

  lemma {:induction false} MeetsTransitive(e: Entry, b: Value, c: Value)
    requires b.Hash? && c.Hash? && Meets(e, b.entries)
    requires forall j :: 0 <= j < |b.entries| ==> Meets(b.entries[j], c.entries)
    ensures Meets(e, c.entries)
    decreases e, 1
  {
    var j :| 0 <= j < |b.entries| && EqlEntry(e, b.entries[j]);
    var k :| 0 <= k < |c.entries| && EqlEntry(b.entries[j], c.entries[k]);
    EqlEntryTransitive(e, b.entries[j], c.entries[k]);
  }

  lemma {:induction false} IsMetTransitive(a: Value, b: Value, g: Entry)
    requires a.Hash? && b.Hash? && IsMet(b, g)
    requires forall j :: 0 <= j < |b.entries| ==> IsMet(a, b.entries[j])
    ensures IsMet(a, g)
    decreases a, 0
  {
    var j :| 0 <= j < |b.entries| && EqlEntry(b.entries[j], g);
    var i :| 0 <= i < |a.entries| && EqlEntry(a.entries[i], b.entries[j]);
    EqlEntryTransitive(a.entries[i], b.entries[j], g);
  }

  lemma {:induction false} EqlEntryTransitive(e: Entry, f: Entry, g: Entry)
    requires EqlEntry(e, f) && EqlEntry(f, g)
    ensures EqlEntry(e, g)
    decreases e, 0
  {
    EqlTransitive(e.key, f.key, g.key);
    EqlTransitive(e.value, f.value, g.value);
  }

  // ----- Hashes.

  /** The position of the key, |es| if there is none. */
  function Find(es: seq<Entry>, k: Value): (i: nat)
    ensures i <= |es|
    ensures i < |es| ==> Eql(es[i].key, k)
    ensures forall j :: 0 <= j < i ==> !Eql(es[j].key, k)
  {
    if es == [] then 0
    else if Eql(es[0].key, k) then 0
    else 1 + Find(es[1..], k)
  }

  /** result[key] = value: a key that is there already keeps its place and its object. */
  function Store(es: seq<Entry>, k: Value, v: Value): seq<Entry> {
    var i := Find(es, k);
    if i < |es| then es[i := Entry(es[i].key, v)] else es + [Entry(k, v)]
  }

  /** No two keys of a hash are eql. */
  ghost predicate DistinctKeys(es: seq<Entry>) {
    forall i, j :: 0 <= i < j < |es| ==> !Eql(es[i].key, es[j].key)
  }

  /** hash[key]. */
  function Lookup(es: seq<Entry>, k: Value): Option<Value> {
    var i := Find(es, k);
    if i < |es| then Some(es[i].value) else None
  }

  /** The pairs stored one after the other into an empty hash. */
  function StoreAll(es: seq<Entry>): seq<Entry> {
    if es == [] then []
    else Store(StoreAll(es[..|es| - 1]), es[|es| - 1].key, es[|es| - 1].value)
  }

  /** The value of the last pair whose key is eql to `k`. */
  function LastValue(es: seq<Entry>, k: Value): Option<Value> {
    if es == [] then None
    else if Eql(es[|es| - 1].key, k) then Some(es[|es| - 1].value)
    else LastValue(es[..|es| - 1], k)
  }

  /** The position of a key is the only one whose key is eql to it. */
  lemma FindOnly(es: seq<Entry>, k: Value, i: nat)
    requires DistinctKeys(es) && i < |es| && Eql(es[i].key, k)
    ensures Find(es, k) == i
  {
    var f := Find(es, k);
    if f < i {
      EqlSymmetric(es[i].key, k);
      EqlTransitive(es[f].key, k, es[i].key);
    }
  }

  lemma FindSame(es: seq<Entry>, k: Value, q: Value)
    requires DistinctKeys(es) && Eql(k, q)
    ensures Find(es, k) == Find(es, q)
  {
    var i, j := Find(es, k), Find(es, q);
    if i < |es| {
      EqlTransitive(es[i].key, k, q);
      FindOnly(es, q, i);
    } else if j < |es| {
      EqlSymmetric(k, q);
      EqlTransitive(es[j].key, q, k);
    }
  }

  lemma {:induction false} FindSkips(es: seq<Entry>, i: nat, e: Entry, q: Value)
    requires i < |es| && e.key == es[i].key
    ensures Find(es[i := e], q) == Find(es, q)
  {
    if i > 0 {
      assert es[i := e][1..] == es[1..][i - 1 := e];
      FindSkips(es[1..], i - 1, e, q);
    } else {
      assert es[i := e][1..] == es[1..];
    }
  }

  lemma {:induction false} FindAppended(es: seq<Entry>, e: Entry, q: Value)
    ensures Find(es + [e], q) == if Find(es, q) < |es| then Find(es, q) else if Eql(e.key, q) then |es| else |es| + 1
  {
    if es == [] {
    } else {
      assert (es + [e])[1..] == es[1..] + [e];
      FindAppended(es[1..], e, q);
    }
  }

  lemma ReplacedLookup(es: seq<Entry>, i: nat, k: Value, v: Value, q: Value)
    requires DistinctKeys(es) && i == Find(es, k) < |es|
    ensures Lookup(es[i := Entry(es[i].key, v)], q) == if Eql(k, q) then Some(v) else Lookup(es, q)
  {
    FindSkips(es, i, Entry(es[i].key, v), q);
    if Eql(k, q) {
      FindSame(es, k, q);
    } else if Find(es, q) == i {
      EqlSymmetric(es[i].key, k);
      EqlTransitive(k, es[i].key, q);
    }
  }

  lemma AppendedLookup(es: seq<Entry>, k: Value, v: Value, q: Value)
    requires DistinctKeys(es) && Find(es, k) == |es|
    ensures Lookup(es + [Entry(k, v)], q) == if Eql(k, q) then Some(v) else Lookup(es, q)
  {
    FindAppended(es, Entry(k, v), q);
    if Eql(k, q) { FindSame(es, k, q); }
  }

  lemma StoreLookup(es: seq<Entry>, k: Value, v: Value, q: Value)
    requires DistinctKeys(es)
    ensures Lookup(Store(es, k, v), q) == if Eql(k, q) then Some(v) else Lookup(es, q)
  {
    var i := Find(es, k);
    if i < |es| { ReplacedLookup(es, i, k, v, q); } else { AppendedLookup(es, k, v, q); }
  }

  lemma StoreKeepsDistinct(es: seq<Entry>, k: Value, v: Value)
    requires DistinctKeys(es)
    ensures DistinctKeys(Store(es, k, v))
  {
  }

  /** Colliding keys are merged and the last value wins: of pairs stored one after the other, a hash keeps keys no two
      of which are eql, and every key looks up the value of the last pair that had an eql key. */
  lemma {:induction false} LastPairWins(es: seq<Entry>, q: Value)
    ensures DistinctKeys(StoreAll(es))
    ensures Lookup(StoreAll(es), q) == LastValue(es, q)
  {
    if es == [] {
    } else {
      var e := es[|es| - 1];
      LastPairWins(es[..|es| - 1], q);
      StoreKeepsDistinct(StoreAll(es[..|es| - 1]), e.key, e.value);
      StoreLookup(StoreAll(es[..|es| - 1]), e.key, e.value, q);
    }
  }

  function Keys(es: seq<Entry>): (ks: seq<Value>)
    ensures |ks| == |es| && forall i :: 0 <= i < |ks| ==> ks[i] == es[i].key
  {
    seq(|es|, i requires 0 <= i < |es| => es[i].key)
  }

  /** The keys that are not eql to any earlier one, in order. */
  function FirstKeys(es: seq<Entry>): seq<Value> {
    if es == [] then []
    else
      var init, k := es[..|es| - 1], es[|es| - 1].key;
      FirstKeys(init) + if Find(init, k) < |init| then [] else [k]
  }

  lemma {:induction false} LastValueFound(es: seq<Entry>, k: Value)
    ensures LastValue(es, k).Some? <==> Find(es, k) < |es|
  {
    if es == [] {
    } else {
      var init, last := es[..|es| - 1], es[|es| - 1];
      LastValueFound(init, k);
      FindAppended(init, last, k);
      assert es == init + [last];
    }
  }

  lemma KeysOfStore(es: seq<Entry>, k: Value, v: Value)
    ensures Keys(Store(es, k, v)) == Keys(es) + if Find(es, k) < |es| then [] else [k]
  {
  }

  /** And the keys of the hash are the first of each kind, in the order they came. */
  lemma {:induction false} KeysComeInOrder(es: seq<Entry>)
    ensures Keys(StoreAll(es)) == FirstKeys(es)
  {
    if es == [] {
    } else {
      var k := es[|es| - 1].key;
      var init := es[..|es| - 1];
      KeysComeInOrder(init);
      KeysOfStore(StoreAll(init), k, es[|es| - 1].value);
      LastPairWins(init, k);
      LastValueFound(init, k);
    }
  }

  /** A list of pairs with distinct keys is a hash that storing builds as it is. */
  lemma {:induction false} DistinctStoreAsIs(es: seq<Entry>)
    requires DistinctKeys(es)
    ensures StoreAll(es) == es
  {
    if es == [] {
    } else {
      var init, k := es[..|es| - 1], es[|es| - 1].key;
      forall i, j | 0 <= i < j < |init| ensures !Eql(init[i].key, init[j].key) {
        assert !Eql(es[i].key, es[j].key);
      }
      DistinctStoreAsIs(init);
      forall i | 0 <= i < |init| ensures !Eql(init[i].key, k) { assert !Eql(es[i].key, k); }
      assert Find(init, k) == |init|;
    }
  }
}
