/** How ext/cproton/cproton.c takes Ruby integers, on the 64-bit systems the client supports. */
module Bindings {
  import opened Wrappers
  import opened Values

  const WORD: int := 0x1_0000_0000

  const LONG_WORD: int := 0x1_0000_0000_0000_0000

  const LONG_MAX: int := 0x7FFF_FFFF_FFFF_FFFF

  /** SWIG_AsVal_long, and long long alike. */
  function AsLong(n: int): Result<int, Failure> {
    if -LONG_MAX - 1 <= n <= LONG_MAX then Ok(n) else Err(TypeFailure)
  }

  /** SWIG_AsVal_unsigned_long, which wraps negative integers around. */
  function AsUnsignedLong(n: int): Result<int, Failure> {
    if -LONG_MAX - 1 <= n < LONG_WORD then Ok(n % LONG_WORD) else Err(TypeFailure)
  }

  /** A check against the limits of a narrower type. */
  function Limited(r: Result<int, Failure>, w: Width): Result<int, Failure> {
    if r.Ok? && !InRange(w, r.value) then Err(RangeFailure) else r
  }

  /** A cast to 32 bits without a check. */
  function CastUnsigned(n: int): int {
    n % WORD
  }

  function CastSigned(n: int): int {
    (n + WORD / 2) % WORD - WORD / 2
  }

  /** What pn_data_put_* of the type takes an integer for. */
  function AsWhole(w: Width, n: int): (r: Result<int, Failure>)
    ensures r.Ok? ==> InRange(w, r.value)
  {
    match w
    case UByte => Limited(AsUnsignedLong(n), UByte)
    case UShort => Limited(AsUnsignedLong(n), UShort)
    case Byte8 => Limited(AsLong(n), Byte8)
    case Short => Limited(AsLong(n), Short)
    case UInt => if AsUnsignedLong(n).Ok? then Ok(CastUnsigned(AsUnsignedLong(n).value)) else AsUnsignedLong(n)
    case Char => if AsUnsignedLong(n).Ok? then Ok(CastUnsigned(AsUnsignedLong(n).value)) else AsUnsignedLong(n)
    case Int32 => if AsLong(n).Ok? then Ok(CastSigned(AsLong(n).value)) else AsLong(n)
    case ULong => AsUnsignedLong(n)
    case _ => AsLong(n)
  }

  /** The integers it takes at all. */
  predicate IsTaken(w: Width, n: int) {
    match w
    case UInt => -LONG_MAX - 1 <= n < LONG_WORD
    case Char => -LONG_MAX - 1 <= n < LONG_WORD
    case ULong => -LONG_MAX - 1 <= n < LONG_WORD
    case Int32 => -LONG_MAX - 1 <= n <= LONG_MAX
    case _ => InRange(w, n)
  }

  /** How many integers a type holds, where more of them are taken. */
  function Modulus(w: Width): int {
    if w == ULong then LONG_WORD else WORD
  }

  /** The binding takes exactly those integers, and holds each as the one in the range of the type that it equals modulo
      the size of the type. */
  lemma TakenAs(w: Width, n: int)
    ensures AsWhole(w, n).Ok? <==> IsTaken(w, n)
    ensures AsWhole(w, n).Ok? ==>
      InRange(w, AsWhole(w, n).value) && (AsWhole(w, n).value - n) % Modulus(w) == 0
    ensures InRange(w, n) ==> AsWhole(w, n) == Ok(n)
  {
    if w == UInt || w == Char { SameModuloWord(n); }
  }

  /** Wrapping around at 64 bits first makes no difference at 32. */
  lemma SameModuloWord(n: int)
    ensures (n % LONG_WORD) % WORD == n % WORD
  {
    var q := n / LONG_WORD;
    assert n == LONG_WORD * q + n % LONG_WORD;
    assert n == WORD * (WORD * q) + n % LONG_WORD;
    AddsWords(n % LONG_WORD, WORD * q);
  }

  lemma AddsWords(n: int, k: int)
    ensures (WORD * k + n) % WORD == n % WORD
  {
  }
}
