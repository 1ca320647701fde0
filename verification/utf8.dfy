/** UTF-8: what String#valid_encoding? accepts is what section 3 of RFC 3629 encodes. */
module Utf8 {
  import opened Wrappers
  import opened Values

  /** The characters: all code points but the surrogates. */
  predicate IsChar(c: int) {
    0 <= c < 0xD800 || 0xE000 <= c < 0x11_0000
  }

  /** The bytes of one character. */
  function Encoded(c: int): (s: Bytes)
    requires IsChar(c)
    ensures 1 <= |s| <= 4
  {
    if c < 0x80 then [c]
    else if c < 0x800 then [0xC0 + c / 0x40, 0x80 + c % 0x40]
    else if c < 0x1_0000 then [0xE0 + c / 0x1000, 0x80 + c / 0x40 % 0x40, 0x80 + c % 0x40]
    else [0xF0 + c / 0x4_0000, 0x80 + c / 0x1000 % 0x40, 0x80 + c / 0x40 % 0x40, 0x80 + c % 0x40]
  }

  predicate AllChars(cs: seq<int>) {
    forall i :: 0 <= i < |cs| ==> IsChar(cs[i])
  }

  function Text(cs: seq<int>): Bytes
    requires AllChars(cs)
  {
    if cs == [] then [] else Encoded(cs[0]) + Text(cs[1..])
  }

  /** The character that a string starts with. */
  function Decoded(s: Bytes): int
    requires CharLength(s) > 0
  {
    var n := CharLength(s);
    var lead: int := s[0];
    if n == 1 then lead
    else if n == 2 then (lead - 0xC0) * 0x40 + Low(s, 1)
    else if n == 3 then (lead - 0xE0) * 0x1000 + Low(s, 1) * 0x40 + Low(s, 2)
    else (lead - 0xF0) * 0x4_0000 + Low(s, 1) * 0x1000 + Low(s, 2) * 0x40 + Low(s, 3)
  }

  /** The six bits of a byte that is not the first. */
  function Low(s: Bytes, i: nat): int
    requires i < |s|
  {
    s[i] as int - 0x80
  }

  lemma TwoBytes(a: int, b: int)
    requires 0 <= a < 0x20 && 0 <= b < 0x40
    ensures var c := a * 0x40 + b; c / 0x40 == a && c % 0x40 == b
  {
  }

  lemma ThreeBytes(a: int, b: int, d: int)
    requires 0 <= a < 0x10 && 0 <= b < 0x40 && 0 <= d < 0x40
    ensures var c := a * 0x1000 + b * 0x40 + d; c / 0x1000 == a && c / 0x40 % 0x40 == b && c % 0x40 == d
  {
    var c := a * 0x1000 + b * 0x40 + d;
    assert c / 0x40 == a * 0x40 + b;
    TwoBytes(a, b);
  }

  lemma FourBytes(a: int, b: int, d: int, e: int)
    requires 0 <= a < 8 && 0 <= b < 0x40 && 0 <= d < 0x40 && 0 <= e < 0x40
    ensures
      var c := a * 0x4_0000 + b * 0x1000 + d * 0x40 + e;
      c / 0x4_0000 == a && c / 0x1000 % 0x40 == b && c / 0x40 % 0x40 == d && c % 0x40 == e
  {
    var c := a * 0x4_0000 + b * 0x1000 + d * 0x40 + e;
    assert c / 0x40 == a * 0x1000 + b * 0x40 + d;
    assert c / 0x1000 == a * 0x40 + b;
    ThreeBytes(a, b, d);
    TwoBytes(a, b);
  }

  lemma DecodedIs(s: Bytes)
    requires CharLength(s) > 0
    ensures IsChar(Decoded(s)) && Encoded(Decoded(s)) == s[..CharLength(s)]
  {
    var n := CharLength(s);
    var lead: int := s[0];
    if n == 2 {
      TwoBytes(lead - 0xC0, Low(s, 1));
    } else if n == 3 {
      ThreeBytes(lead - 0xE0, Low(s, 1), Low(s, 2));
    } else if n == 4 {
      FourBytes(lead - 0xF0, Low(s, 1), Low(s, 2), Low(s, 3));
    }
  }

  lemma EncodedStarts(c: int, rest: Bytes)
    requires IsChar(c)
    ensures CharLength(Encoded(c) + rest) == |Encoded(c)|
  {
    var s := Encoded(c) + rest;
    assert forall i :: 0 <= i < |Encoded(c)| ==> s[i] == Encoded(c)[i];
  }

  lemma {:induction false} TextIsUtf8(cs: seq<int>)
    requires AllChars(cs)
    ensures IsUtf8(Text(cs))
    decreases |cs|
  {
    if cs == [] {
    } else {
      TextIsUtf8(cs[1..]);
      EncodedStarts(cs[0], Text(cs[1..]));
      assert Text(cs)[|Encoded(cs[0])|..] == Text(cs[1..]);
    }
  }

  lemma {:induction false} Utf8IsText(s: Bytes) returns (cs: seq<int>)
    requires IsUtf8(s)
    ensures AllChars(cs) && Text(cs) == s
    decreases |s|
  {
    if s == [] {
      cs := [];
    } else {
      var n := CharLength(s);
      var rest := Utf8IsText(s[n..]);
      DecodedIs(s);
      cs := [Decoded(s)] + rest;
      assert cs[1..] == rest && s == s[..n] + s[n..];
    }
  }

  /** A string of the encoding UTF-8 is valid exactly if it is the encoding of some characters: no overlong form, no
      surrogate and nothing beyond U+10FFFF. */
  lemma ValidIffText(s: Bytes)
    ensures IsUtf8(s) <==> exists cs: seq<int> :: AllChars(cs) && Text(cs) == s
  {
    if IsUtf8(s) { var cs := Utf8IsText(s); }
    forall cs: seq<int> | AllChars(cs) && Text(cs) == s ensures IsUtf8(s) { TextIsUtf8(cs); }
  }
}
