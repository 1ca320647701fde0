/** uuid= and uuid, decimal128= and decimal128 of lib/codec/data.rb: hexadecimal text to bytes and back. */
module Hex {
  import opened Wrappers
  import opened Values

  function Digit(d: nat): (c: char)
    requires d < 16
    ensures IsHex(c) && DigitValue(c) == d && LowerChar(c) == c
  {
    if d < 10 then '0' + d as char else 'a' + (d - 10) as char
  }

  predicate IsHex(c: char) {
    '0' <= c <= '9' || 'a' <= c <= 'f' || 'A' <= c <= 'F'
  }

  predicate AllHex(s: string) {
    forall i :: 0 <= i < |s| ==> IsHex(s[i])
  }

  function DigitValue(c: char): (d: nat)
    requires IsHex(c)
    ensures d < 16
  {
    if c <= '9' then (c - '0') as int
    else if c <= 'F' then (c - 'A') as int + 10
    else (c - 'a') as int + 10
  }

  /** downcase of a character, and of a string. */
  function LowerChar(c: char): char {
    if 'A' <= c <= 'Z' then c - 'A' + 'a' else c
  }

  function Lower(s: string): (r: string)
    ensures |r| == |s|
  {
    seq(|s|, i requires 0 <= i < |s| => LowerChar(s[i]))
  }

  /** to_s(16) */
  function ToHex(n: nat): (s: string)
    ensures |s| > 0 && AllHex(s)
  {
    if n < 16 then [Digit(n)] else ToHex(n / 16) + [Digit(n % 16)]
  }

  /** to_i(16) of a string of digits. */
  function FromHex(s: string): nat
    requires AllHex(s)
  {
    if s == [] then 0 else 16 * FromHex(s[..|s| - 1]) + DigitValue(s[|s| - 1])
  }

  function Zeros(n: nat): (s: string)
    ensures |s| == n && AllHex(s)
  {
    if n == 0 then "" else Zeros(n - 1) + "0"
  }

  /** to_s(16) of any integer. */
  function ToSignedHex(n: int): string {
    if n < 0 then "-" + ToHex(-n) else ToHex(n)
  }

  /** rjust(width, "0"), which is also what "%032x" does to a number that is not negative. */
  function RightJustified(s: string, width: nat): (r: string)
    ensures AllHex(s) ==> AllHex(r)
    ensures |r| == if |s| < width then width else |s|
  {
    if |s| < width then Zeros(width - |s|) + s else s
  }

  function Pow16(k: nat): nat {
    if k == 0 then 1 else 16 * Pow16(k - 1)
  }

  /** The byte of two digits. */
  function PairByte(a: char, b: char): Byte
    requires IsHex(a) && IsHex(b)
  {
    16 * DigitValue(a) + DigitValue(b)
  }

  /** Characters that to_i skips at the front. */
  predicate IsBlank(c: char) {
    c in {' ', '\t', '\n', '\U{B}', '\U{C}', '\r'}
  }

  /** to_i(16) of any two characters: a blank or a sign may come before one digit, and what follows the digits is
      ignored. */
  function PairInteger(a: char, b: char): int {
    if IsHex(a) then (if IsHex(b) then PairByte(a, b) else DigitValue(a))
    else if (IsBlank(a) || a == '+') && IsHex(b) then DigitValue(b)
    else if a == '-' && IsHex(b) then -(DigitValue(b) as int)
    else 0
  }

  /** scan(/(..)/) { |v| bytes << v[0].to_i(16) }: the pairs from the front, none of which has a newline in it; an odd
      character at the end is left over. */
  function Scan(s: string): seq<int> {
    if |s| < 2 then []
    else if s[0] == '\n' || s[1] == '\n' then Scan(s[1..])
    else [PairInteger(s[0], s[1])] + Scan(s[2..])
  }

  /** The bytes of a string of digits. */
  function Scanned(s: string): (bytes: Bytes)
    requires AllHex(s)
    ensures |bytes| == |s| / 2
  {
    if |s| < 2 then [] else [PairByte(s[0], s[1])] + Scanned(s[2..])
  }

  /** "%02x" of every byte. */
  function Printed(bytes: Bytes): (s: string)
    ensures |s| == 2 * |bytes| && AllHex(s)
  {
    if bytes == [] then "" else [Digit(bytes[0] / 16), Digit(bytes[0] % 16)] + Printed(bytes[1..])
  }

  // ----- Digits and numbers.

  lemma {:induction false} FromHexOfToHex(n: nat)
    ensures FromHex(ToHex(n)) == n
  {
    if n < 16 {
    } else {
      FromHexOfToHex(n / 16);
      assert ToHex(n)[..|ToHex(n)| - 1] == ToHex(n / 16);
    }
  }

  lemma {:induction false} ToHexLength(n: nat, k: nat)
    requires k > 0
    ensures |ToHex(n)| <= k <==> n < Pow16(k)
  {
    if k == 1 {
      assert Pow16(1) == 16 * Pow16(0);
    } else if n >= 16 {
      ToHexLength(n / 16, k - 1);
    } else {
      ToHexLength(n, k - 1);
    }
  }

  lemma {:induction false} FromHexBound(s: string)
    requires AllHex(s)
    ensures FromHex(s) < Pow16(|s|)
  {
    if s == [] {
    } else {
      FromHexBound(s[..|s| - 1]);
    }
  }

  lemma {:induction false} LeadingZeros(k: nat, s: string)
    requires AllHex(s)
    ensures FromHex(Zeros(k) + s) == FromHex(s)
    decreases k + |s|
  {
    if s != [] {
      LeadingZeros(k, s[..|s| - 1]);
      assert (Zeros(k) + s)[..k + |s| - 1] == Zeros(k) + s[..|s| - 1];
    } else if k > 0 {
      LeadingZeros(k - 1, "");
      assert (Zeros(k) + "")[..k - 1] == Zeros(k - 1) + "";
    }
  }

  lemma {:induction false} FromHexIgnoresCase(s: string)
    requires AllHex(s)
    ensures AllHex(Lower(s)) && FromHex(Lower(s)) == FromHex(s)
  {
    if s == [] {
    } else {
      FromHexIgnoresCase(s[..|s| - 1]);
      assert Lower(s)[..|s| - 1] == Lower(s[..|s| - 1]);
    }
  }

  /** What is scanned from digits are their bytes. */
  lemma {:induction false} ScanOfDigits(s: string)
    requires AllHex(s)
    ensures Scan(s) == Scanned(s)
  {
    if |s| < 2 {
    } else {
      assert IsHex(s[0]) && IsHex(s[1]);
      ScanOfDigits(s[2..]);
    }
  }

  /** Printing the bytes scanned from an even number of digits gives the digits back in lower case. */
  lemma {:induction false} PrintedScanned(s: string)
    requires AllHex(s) && |s| % 2 == 0
    ensures Printed(Scanned(s)) == Lower(s)
  {
    if s == [] {
    } else {
      PrintedScanned(s[2..]);
      PrintedPair(s[0], s[1]);
      assert Scanned(s)[1..] == Scanned(s[2..]);
      assert Lower(s) == [LowerChar(s[0]), LowerChar(s[1])] + Lower(s[2..]);
    }
  }

  lemma PrintedPair(a: char, b: char)
    requires IsHex(a) && IsHex(b)
    ensures Digit(PairByte(a, b) / 16) == LowerChar(a) && Digit(PairByte(a, b) % 16) == LowerChar(b)
  {
    DigitOfValue(a);
    DigitOfValue(b);
  }

  lemma DigitOfValue(c: char)
    requires IsHex(c)
    ensures Digit(DigitValue(c)) == LowerChar(c)
  {
  }

  // ----- decimal128.

  /** The sixteen bytes that ext/cproton/cproton.c makes of the numbers for a decimal128 or uuid: it raises if there are
      fewer, cuts each to a byte, and ignores what is left over. */
  function Sixteen(values: seq<int>): (bytes: Option<Bytes>)
    ensures bytes.Some? ==> |bytes.value| == 16
  {
    if |values| < 16 then None else Some(seq(16, i requires 0 <= i < 16 => values[i] % 256))
  }

  /** Thirty-two digits make the bytes of the node. */
  lemma SixteenOfDigits(s: string)
    requires AllHex(s) && |s| == 32
    ensures Sixteen(Scan(s)) == Some(Scanned(s))
  {
    ScanOfDigits(s);
    var values := Scan(s);
    assert forall i :: 0 <= i < 16 ==> values[i] == Scanned(s)[i];
    assert Sixteen(values).value == Scanned(s);
  }

  method PutDecimal128(n: int) returns (values: seq<int>)
    ensures values == Scan(RightJustified(ToSignedHex(n), 32))
  {
    values := ScanPairs(RightJustified(ToSignedHex(n), 32));
  }

  method ScanPairs(value: string) returns (values: seq<int>)
    ensures values == Scan(value)
  {
    values := [];
    var i := 0;
    while i + 2 <= |value|
      invariant i <= |value|
      invariant values + Scan(value[i..]) == Scan(value)
    {
      if value[i] == '\n' || value[i + 1] == '\n' {
        assert value[i..][1..] == value[i + 1..];
        i := i + 1;
      } else {
        assert value[i..][2..] == value[i + 2..];
        values := values + [PairInteger(value[i], value[i + 1])];
        i := i + 2;
      }
    }
  }

  method PrintBytes(bytes: Bytes) returns (value: string)
    ensures value == Printed(bytes)
  {
    value := "";
    for i := 0 to |bytes|
      invariant value + Printed(bytes[i..]) == Printed(bytes)
    {
      assert bytes[i..][1..] == bytes[i + 1..];
      value := value + [Digit(bytes[i] / 16), Digit(bytes[i] % 16)];
    }
  }

  method GetDecimal128(bytes: Bytes) returns (n: nat)
    ensures n == FromHex(Printed(bytes))
  {
    var value := PrintBytes(bytes);
    n := FromHex(value);
  }

  /** decimal128 of what decimal128= has put, if it has not raised. */
  function Decimal128Again(n: int): Option<nat> {
    match Sixteen(Scan(RightJustified(ToSignedHex(n), 32)))
    case Some(bytes) => Some(FromHex(Printed(bytes)))
    case None => None
  }

  /** An integer that is put as a decimal128 is got again exactly if it is not negative and below 2^128. */
  lemma Decimal128RoundTripIff(n: int)
    ensures Decimal128Again(n) == Some(n) <==> 0 <= n < 0x1_0000_0000_0000_0000_0000_0000_0000_0000
  {
    PowerOf32();
    var bytes := Sixteen(Scan(RightJustified(ToSignedHex(n), 32)));
    if bytes.Some? { FromHexBound(Printed(bytes.value)); }
    if 0 <= n < Pow16(32) { DigitsComeBack(n); }
  }

  /** The digits of a number that fits come back in 32 places. */
  lemma DigitsComeBack(n: nat)
    requires n < Pow16(32)
    ensures
      var bytes := Sixteen(Scan(RightJustified(ToHex(n), 32)));
      bytes.Some? && FromHex(Printed(bytes.value)) == n
  {
    var s := RightJustified(ToHex(n), 32);
    ToHexLength(n, 32);
    SixteenOfDigits(s);
    PrintedScanned(s);
    FromHexIgnoresCase(s);
    FromHexOfToHex(n);
    LeadingZeros(32 - |ToHex(n)|, ToHex(n));
    if |ToHex(n)| == 32 { assert s == Zeros(0) + ToHex(n); }
  }

  lemma {:induction false} Pow16Sum(j: nat, k: nat)
    ensures Pow16(j + k) == Pow16(j) * Pow16(k)
  {
    if j == 0 {
    } else {
      Pow16Sum(j - 1, k);
    }
  }

  lemma PowerOf32()
    ensures Pow16(32) == 0x1_0000_0000_0000_0000_0000_0000_0000_0000
  {
    assert Pow16(1) == 16;
    Pow16Sum(1, 1);
    Pow16Sum(2, 2);
    Pow16Sum(4, 4);
    Pow16Sum(8, 8);
    Pow16Sum(16, 16);
  }

  // ----- uuid.

  predicate IsCanonicalUuid(s: string) {
    && |s| == 36
    && forall i :: 0 <= i < 36 ==> if i in {8, 13, 18, 23} then s[i] == '-' else IsHex(s[i])
  }

  /** valid_uuid?: the pattern is not anchored, so the string may have it anywhere. */
  predicate ValidUuid(s: string) {
    exists k :: 0 <= k <= |s| - 36 && IsCanonicalAt(s, k)
  }

  predicate IsCanonicalAt(s: string, k: nat)
    requires k + 36 <= |s|
  {
    IsCanonicalUuid(s[k..k + 36])
  }

  /** The five fields of digits by their positions. */
  function Fields(s: string): (digits: string)
    requires |s| >= 36
    ensures |digits| == 32
  {
    s[0..8] + s[9..13] + s[14..18] + s[19..23] + s[24..36]
  }

  function InsertDash(s: string, k: nat): (t: string)
    requires k <= |s|
    ensures |t| == |s| + 1 && t[k] == '-'
    ensures forall i :: 0 <= i < k ==> t[i] == s[i]
    ensures forall i :: k < i <= |s| ==> t[i] == s[i - 1]
  {
    s[..k] + "-" + s[k..]
  }

  /** What uuid makes of sixteen bytes. */
  function UuidText(bytes: Bytes): (s: string)
    requires |bytes| == 16
    ensures |s| == 36
  {
    InsertDash(InsertDash(InsertDash(InsertDash(Printed(bytes), 8), 13), 18), 23)
  }

  lemma ValidOfLength36(s: string)
    requires |s| == 36
    ensures ValidUuid(s) <==> IsCanonicalUuid(s)
  {
    assert s[0..36] == s;
    assert IsCanonicalAt(s, 0) <==> IsCanonicalUuid(s);
  }

  /** Where the i-th digit of a canonical uuid stands. */
  function At(i: nat): (k: nat)
    ensures i < 32 ==> k < 36 && k !in {8, 13, 18, 23}
  {
    if i < 8 then i else if i < 12 then i + 1 else if i < 16 then i + 2 else if i < 20 then i + 3 else i + 4
  }

  lemma FieldAt(s: string, i: nat)
    requires |s| >= 36 && i < 32
    ensures Fields(s)[i] == s[At(i)]
  {
  }

  lemma DashedAt(bytes: Bytes, i: nat)
    requires |bytes| == 16 && i < 32
    ensures UuidText(bytes)[At(i)] == Printed(bytes)[i]
  {
    var p1 := InsertDash(Printed(bytes), 8);
    var p2 := InsertDash(p1, 13);
    var p3 := InsertDash(p2, 18);
    assert UuidText(bytes) == InsertDash(p3, 23);
    var at := At(i);
    if at > 23 {
      assert p3[at - 1] == p2[at - 2] == p1[at - 3];
    } else if at > 18 {
      assert p3[at] == p2[at - 1] == p1[at - 2];
    } else if at > 13 {
      assert p3[at] == p2[at] == p1[at - 1];
    } else {
      assert p3[at] == p2[at] == p1[at];
    }
  }

  /** The text of sixteen bytes, field by field. */
  lemma UuidTextFields(bytes: Bytes)
    requires |bytes| == 16
    ensures Fields(UuidText(bytes)) == Printed(bytes)
    ensures forall i :: i in {8, 13, 18, 23} ==> UuidText(bytes)[i] == '-'
  {
    var t := UuidText(bytes);
    forall i | 0 <= i < 32 ensures Fields(t)[i] == Printed(bytes)[i] {
      FieldAt(t, i);
      DashedAt(bytes, i);
    }
  }

  lemma FieldsDetermine(s: string, t: string)
    requires |s| == 36 && |t| == 36 && Fields(s) == Fields(t)
    requires forall i :: i in {8, 13, 18, 23} ==> s[i] == t[i]
    ensures s == t
  {
    assert forall i :: 0 <= i < 8 ==> s[i] == Fields(s)[i] && t[i] == Fields(t)[i];
    assert forall i :: 9 <= i < 13 ==> s[i] == Fields(s)[i - 1] && t[i] == Fields(t)[i - 1];
    assert forall i :: 14 <= i < 18 ==> s[i] == Fields(s)[i - 2] && t[i] == Fields(t)[i - 2];
    assert forall i :: 19 <= i < 23 ==> s[i] == Fields(s)[i - 3] && t[i] == Fields(t)[i - 3];
    assert forall i :: 24 <= i < 36 ==> s[i] == Fields(s)[i - 4] && t[i] == Fields(t)[i - 4];
  }

  lemma LowerFields(s: string)
    requires |s| == 36
    ensures Fields(Lower(s)) == Lower(Fields(s))
  {
    forall i | 0 <= i < 32 ensures Fields(Lower(s))[i] == Lower(Fields(s))[i] {
      FieldAt(s, i);
      FieldAt(Lower(s), i);
    }
  }

  lemma CanonicalComesBack(s: string)
    requires IsCanonicalUuid(s)
    ensures AllHex(Fields(s)) && UuidText(Scanned(Fields(s))) == Lower(s)
  {
    forall i | 0 <= i < 32 ensures IsHex(Fields(s)[i]) {
      FieldAt(s, i);
    }
    PrintedScanned(Fields(s));
    UuidTextFields(Scanned(Fields(s)));
    LowerFields(s);
    FieldsDetermine(UuidText(Scanned(Fields(s))), Lower(s));
  }

  /** uuid of what uuid= has put from text, if it has not raised. */
  function UuidAgain(text: string): Option<string> {
    match Sixteen(Scan(text))
    case Some(bytes) => Some(UuidText(bytes))
    case None => None
  }

  /** A string that uuid= accepts comes back, in lower case, exactly if it has 36 characters: the pattern is searched
      for anywhere in the string, but the fields are cut from its start, where the pattern need not be. */
  lemma UuidRoundTripIff(s: string)
    requires ValidUuid(s)
    ensures UuidAgain(Fields(s)) == Some(Lower(s)) <==> |s| == 36
    ensures IsCanonicalAt(s, 0) ==> UuidAgain(Fields(s)) == Some(Lower(s[..36]))
  {
    if IsCanonicalAt(s, 0) { CanonicalAtStart(s); }
    if |s| == 36 {
      ValidOfLength36(s);
      assert s[..36] == s[0..36] == s;
    }
  }

  lemma CanonicalAtStart(s: string)
    requires |s| >= 36 && IsCanonicalAt(s, 0)
    ensures UuidAgain(Fields(s)) == Some(Lower(s[..36]))
  {
    assert s[0..36] == s[..36];
    CanonicalComesBack(s[..36]);
    forall i | 0 <= i < 32 ensures Fields(s)[i] == Fields(s[..36])[i] {
      FieldAt(s, i);
      FieldAt(s[..36], i);
    }
    assert Fields(s) == Fields(s[..36]);
    SixteenOfDigits(Fields(s));
  }

  /** "%032x" of an integer; what it makes of a negative one is `negative`. */
  function Format32(n: int, negative: int -> string): string {
    if n < 0 then negative(n) else RightJustified(ToHex(n), 32)
  }

  /** Sixteen bytes are always canonical text in lower case. */
  lemma TextIsCanonical(bytes: Bytes)
    requires |bytes| == 16
    ensures IsCanonicalUuid(UuidText(bytes)) && Lower(UuidText(bytes)) == UuidText(bytes)
  {
    var text := UuidText(bytes);
    UuidTextFields(bytes);
    PrintedIsLower(bytes);
    forall i | 0 <= i < 36 && i !in {8, 13, 18, 23} ensures IsHex(text[i]) && LowerChar(text[i]) == text[i] {
      var k := if i < 8 then i else if i < 13 then i - 1 else if i < 18 then i - 2 else if i < 23 then i - 3 else i - 4;
      assert text[i] == Fields(text)[k] == Printed(bytes)[k];
      assert Lower(Printed(bytes))[k] == Printed(bytes)[k];
    }
    assert Lower(text) == text;
  }

  /** An integer that is put as a uuid comes back as canonical text in lower case, and its digits are those of the
      integer exactly if it is not negative and below 2^128. */
  lemma IntegerUuidRoundTripIff(n: int, negative: int -> string)
    ensures
      var text := UuidAgain(Format32(n, negative));
      && (text.Some? ==>
            IsCanonicalUuid(text.value) && AllHex(Fields(text.value)) && Lower(text.value) == text.value)
      && ((text.Some? && FromHex(Fields(text.value)) == n)
          <==> 0 <= n < 0x1_0000_0000_0000_0000_0000_0000_0000_0000)
  {
    PowerOf32();
    var bytes := Sixteen(Scan(Format32(n, negative)));
    if bytes.Some? {
      TextIsCanonical(bytes.value);
      UuidTextFields(bytes.value);
      FromHexBound(Printed(bytes.value));
    }
    if 0 <= n < Pow16(32) { DigitsComeBack(n); }
  }

  lemma {:induction false} PrintedIsLower(bytes: Bytes)
    ensures Lower(Printed(bytes)) == Printed(bytes)
  {
    if bytes == [] {
    } else {
      PrintedIsLower(bytes[1..]);
      var a, b := Digit(bytes[0] / 16), Digit(bytes[0] % 16);
      assert Lower(Printed(bytes)) == [LowerChar(a), LowerChar(b)] + Lower(Printed(bytes[1..]));
    }
  }

  datatype UuidInput = Number(n: int) | Text(s: string)

  /** uuid=: what is scanned from a number or from the fields of a valid string; anything else is an argument error. */
  method PutUuid(value: UuidInput, negative: int -> string) returns (r: Option<seq<int>>)
    ensures
      match value
      case Number(n) => r == Some(Scan(Format32(n, negative)))
      case Text(s) => if ValidUuid(s) then r == Some(Scan(Fields(s))) else r.None?
  {
    match value {
      case Number(n) =>
        var values := ScanPairs(Format32(n, negative));
        r := Some(values);
      case Text(s) =>
        if !ValidUuid(s) { return None; }
        var values := ScanPairs(Fields(s));
        r := Some(values);
    }
  }

  method GetUuid(bytes: Bytes) returns (s: string)
    requires |bytes| == 16
    ensures s == UuidText(bytes)
  {
    s := PrintBytes(bytes);
    s := InsertDash(InsertDash(InsertDash(InsertDash(s, 8), 13), 18), 23);
  }
}
