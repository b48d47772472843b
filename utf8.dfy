/** UTF-8, standing in for Foundation's `String.data(using: .utf8)`. Decoding is given so
    that the encoding can be shown to lose nothing. */
module Utf8 {
  import opened Wrappers
  import opened Base64

  predicate IsScalar(n: int) {
    0 <= n < 0xD800 || 0xE000 <= n < 0x11_0000
  }

  /** The one to four bytes of one Unicode scalar value. */
  function EncodeChar(c: char): (b: seq<Byte>)
    ensures 1 <= |b| <= 4
  {
    var n := c as int;
    if n < 0x80 then [n]
    else if n < 0x800 then [0xC0 + n / 64, 0x80 + n % 64]
    else if n < 0x1_0000 then [0xE0 + n / 4096, 0x80 + (n / 64) % 64, 0x80 + n % 64]
    else [0xF0 + n / 262144, 0x80 + (n / 4096) % 64, 0x80 + (n / 64) % 64, 0x80 + n % 64]
  }

  function Encode(s: string): seq<Byte> {
    if s == [] then [] else EncodeChar(s[0]) + Encode(s[1..])
  }

  predicate IsContinuation(b: Byte) {
    0x80 <= b < 0xC0
  }

  /** The number of bytes a sequence starting with `lead` occupies, or 0 if `lead` cannot
      start one. */
  function SequenceLength(lead: Byte): nat {
    if lead < 0x80 then 1
    else if 0xC0 <= lead < 0xE0 then 2
    else if 0xE0 <= lead < 0xF0 then 3
    else if 0xF0 <= lead < 0xF8 then 4
    else 0
  }

  /** The scalar value of one complete byte sequence. */
  function SequenceValue(b: seq<Byte>): int
    requires 1 <= |b| <= 4
  {
    var b0: int := b[0];
    if |b| == 1 then b0
    else if |b| == 2 then (b0 - 0xC0) * 64 + (b[1] as int - 0x80)
    else if |b| == 3 then (b0 - 0xE0) * 4096 + (b[1] as int - 0x80) * 64 + (b[2] as int - 0x80)
    else (b0 - 0xF0) * 262144 + (b[1] as int - 0x80) * 4096 + (b[2] as int - 0x80) * 64 + (b[3] as int - 0x80)
  }

  function Decode(b: seq<Byte>): Option<string>
    decreases |b|
  {
    if b == [] then Some([])
    else
      var k := SequenceLength(b[0]);
      if k == 0 || |b| < k || !(forall i :: 1 <= i < k ==> IsContinuation(b[i])) then None
      else
        var n := SequenceValue(b[..k]);
        if !IsScalar(n) then None
        else
          match Decode(b[k..])
          case None => None
          case Some(rest) => Some([n as char] + rest)
  }

  predicate WellFormed(b: seq<Byte>) {
    && 1 <= |b| <= 4
    && SequenceLength(b[0]) == |b|
    && (forall i :: 1 <= i < |b| ==> IsContinuation(b[i]))
  }

  lemma EncodeCharShape(c: char)
    ensures WellFormed(EncodeChar(c)) && SequenceValue(EncodeChar(c)) == c as int
  {
    var n := c as int;
    if n < 0x80 {
    } else if n < 0x800 {
      TwoByteShape(n);
    } else if n < 0x1_0000 {
      ThreeByteShape(n);
    } else {
      FourByteShape(n);
    }
  }

  lemma TwoByteShape(n: int)
    requires 0x80 <= n < 0x800
    ensures 0xC0 <= 0xC0 + n / 64 < 0xE0
    ensures (n / 64) * 64 + n % 64 == n
  {
  }

  lemma ThreeByteShape(n: int)
    requires 0x800 <= n < 0x1_0000
    ensures 0xE0 <= 0xE0 + n / 4096 < 0xF0
    ensures (n / 4096) * 4096 + ((n / 64) % 64) * 64 + n % 64 == n
  {
  }

  lemma FourByteShape(n: int)
    requires 0x1_0000 <= n < 0x11_0000
    ensures 0xF0 <= 0xF0 + n / 262144 < 0xF8
    ensures (n / 262144) * 262144 + ((n / 4096) % 64) * 4096 + ((n / 64) % 64) * 64 + n % 64 == n
  {
  }

  lemma DecodeCons(c: char, rest: seq<Byte>)
    ensures Decode(EncodeChar(c) + rest) == match Decode(rest)
                                             case None => None
                                             case Some(s) => Some([c] + s)
  {
    var b := EncodeChar(c);
    var whole := b + rest;
    EncodeCharShape(c);
    assert whole[..|b|] == b;
    assert whole[|b|..] == rest;
    assert forall i :: 1 <= i < |b| ==> whole[i] == b[i];
  }

  /** Decoding the UTF-8 encoding of a string gives the string back. */
  lemma {:induction false} DecodeEncode(s: string)
    ensures Decode(Encode(s)) == Some(s)
  {
    if s != [] {
      DecodeEncode(s[1..]);
      DecodeCons(s[0], Encode(s[1..]));
      assert [s[0]] + s[1..] == s;
    }
  }

  /** An ASCII string encodes to one byte per character. */
  lemma {:induction false} EncodeAscii(s: string)
    requires forall i :: 0 <= i < |s| ==> s[i] as int < 0x80
    ensures |Encode(s)| == |s|
    ensures forall i :: 0 <= i < |s| ==> Encode(s)[i] == s[i] as int
  {
    if s != [] {
      EncodeAscii(s[1..]);
    }
  }
}
