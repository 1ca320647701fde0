/** Message#encode and Data#encode: a buffer that is doubled until the encoding fits. */
module Encoders {
  import opened Wrappers
  import opened Values

  type ErrorCode = c: int | c < 0 witness -1

  /** What the proton encoder makes of a message or a tree: its encoding, or an error, which it may report only once
      the buffer has some size. */
  datatype Wire = Encoding(bytes: Bytes) | Erroneous(code: ErrorCode, from: nat)

  datatype Answer = Overflow | Encoded(bytes: Bytes) | Error(code: ErrorCode)

  function EncodeInto(w: Wire, size: nat): Answer {
    match w
    case Encoding(bytes) => if |bytes| <= size then Encoded(bytes) else Overflow
    case Erroneous(code, from) => if from <= size then Error(code) else Overflow
  }

  /** The size the encoder does not overflow at. */
  function Needed(w: Wire): nat {
    match w
    case Encoding(bytes) => |bytes|
    case Erroneous(_, from) => from
  }

  /** What a caller of encode gets. */
  function Outcome(w: Wire): Result<Bytes, ErrorCode> {
    match w
    case Encoding(bytes) => Ok(bytes)
    case Erroneous(code, _) => Err(code)
  }

  /** Message#encode: the whole encoding, or the error; the last size tried is the first one or less than twice what
      is needed. */
  method EncodeMessage(w: Wire) returns (r: Result<Bytes, ErrorCode>, size: nat)
    ensures r == Outcome(w)
    ensures Needed(w) <= size && (size == 16 || size < 2 * Needed(w))
  {
    size := 16;
    while true
      invariant size >= 16 && (size == 16 || size < 2 * Needed(w))
      decreases Needed(w) - size
    {
      match EncodeInto(w, size) {
        case Overflow => size := 2 * size;
        case Encoded(bytes) => return Ok(bytes), size;
        case Error(code) => return Err(code), size;
      }
    }
  }

  function Repeated(b: Byte, n: nat): (r: Bytes)
    ensures |r| == n
  {
    seq(n, _ => b)
  }

  /** pn_data_encode writes to the front of the buffer and answers how much it wrote. */
  function Written(buffer: Bytes, bytes: Bytes): (r: Bytes)
    requires |bytes| <= |buffer|
    ensures |r| == |buffer| && r[..|bytes|] == bytes
  {
    bytes + buffer[|bytes|..]
  }

  /** Data#encode: the same with a buffer of its own, of which it returns what was written. */
  method EncodeData(w: Wire) returns (r: Result<Bytes, ErrorCode>, size: nat)
    ensures r == Outcome(w)
    ensures Needed(w) <= size && (size == 1024 || size < 2 * Needed(w))
  {
    var buffer := Repeated(0, 1024);
    while true
      invariant |buffer| >= 1024 && (|buffer| == 1024 || |buffer| < 2 * Needed(w))
      decreases Needed(w) - |buffer|
    {
      match EncodeInto(w, |buffer|) {
        case Overflow => buffer := buffer + buffer;
        case Encoded(bytes) =>
          buffer := Written(buffer, bytes);
          return Ok(buffer[..|bytes|]), |buffer|;
        case Error(code) => return Err(code), |buffer|;
      }
    }
  }
}
