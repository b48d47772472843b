/** Standard padded Base64 (the alphabet A-Z a-z 0-9 + /, `=` padding), standing in for
    Foundation's `Data.base64EncodedString()`. Decoding is given so that the encoding can
    be shown to lose nothing. */
module Base64 {
  import opened Wrappers

  type Byte = x: int | 0 <= x < 256
  type Sextet = x: int | 0 <= x < 64

  function Char(i: Sextet): char {
    if i < 26 then ('A' as int + i) as char
    else if i < 52 then ('a' as int + (i - 26)) as char
    else if i < 62 then ('0' as int + (i - 52)) as char
    else if i == 62 then '+'
    else '/'
  }

  /** The sextet a character stands for, or -1 if it is not in the alphabet. */
  function Index(c: char): int {
    if 'A' <= c <= 'Z' then c as int - 'A' as int
    else if 'a' <= c <= 'z' then c as int - 'a' as int + 26
    else if '0' <= c <= '9' then c as int - '0' as int + 52
    else if c == '+' then 62
    else if c == '/' then 63
    else -1
  }

  lemma IndexOfChar(i: Sextet)
    ensures Index(Char(i)) == i
  {
  }

  /** Three bytes as four characters, the last `pad` of them replaced by `=`. */
  function Block(b0: Byte, b1: Byte, b2: Byte, pad: nat): string
    requires pad <= 2
  {
    var c0 := Char(b0 / 4);
    var c1 := Char((b0 % 4) * 16 + b1 / 16);
    var c2 := if pad == 2 then '=' else Char((b1 % 16) * 4 + b2 / 64);
    var c3 := if pad >= 1 then '=' else Char(b2 % 64);
    [c0, c1, c2, c3]
  }

  function Encode(b: seq<Byte>): (s: string)
    ensures |s| == 4 * ((|b| + 2) / 3)
  {
    if |b| == 0 then ""
    else if |b| == 1 then Block(b[0], 0, 0, 2)
    else if |b| == 2 then Block(b[0], b[1], 0, 1)
    else
      assert (|b| + 2) / 3 == (|b[3..]| + 2) / 3 + 1;
      Block(b[0], b[1], b[2], 0) + Encode(b[3..])
  }

  predicate InAlphabet(c: char) {
    0 <= Index(c) < 64
  }

  /** The bytes of one four-character group; a `=` ends the data. */
  function DecodeBlock(s: string): Option<seq<Byte>>
    requires |s| == 4
  {
    if !InAlphabet(s[0]) || !InAlphabet(s[1]) then None
    else
      var i0, i1 := Index(s[0]), Index(s[1]);
      var b0: Byte := i0 * 4 + i1 / 16;
      if s[2] == '=' && s[3] == '=' then Some([b0])
      else if !InAlphabet(s[2]) then None
      else
        var i2 := Index(s[2]);
        var b1: Byte := (i1 % 16) * 16 + i2 / 4;
        if s[3] == '=' then Some([b0, b1])
        else if !InAlphabet(s[3]) then None
        else Some([b0, b1, (i2 % 4) * 64 + Index(s[3])])
  }

  function Decode(s: string): Option<seq<Byte>>
    decreases |s|
  {
    if |s| == 0 then Some([])
    else if |s| < 4 then None
    else
      match DecodeBlock(s[..4])
      case None => None
      case Some(head) =>
        if |head| < 3 then (if |s| == 4 then Some(head) else None)
        else
          match Decode(s[4..])
          case None => None
          case Some(tail) => Some(head + tail)
  }

  /** A two-digit number in base `16` splits back into its digits. */
  lemma Split16(hi: int, lo: int)
    requires 0 <= hi < 16 && 0 <= lo < 16
    ensures (hi * 16 + lo) / 16 == hi && (hi * 16 + lo) % 16 == lo
  {
  }

  /** A number `hi * 4 + lo` with `lo < 4` splits back into `hi` and `lo`. */
  lemma Split4(hi: int, lo: int)
    requires 0 <= hi < 16 && 0 <= lo < 4
    ensures (hi * 4 + lo) / 4 == hi && (hi * 4 + lo) % 4 == lo
  {
  }

  lemma FullBlockRoundTrip(b0: Byte, b1: Byte, b2: Byte)
    ensures DecodeBlock(Block(b0, b1, b2, 0)) == Some([b0, b1, b2])
  {
    var i0, i1, i2, i3 := b0 / 4, (b0 % 4) * 16 + b1 / 16, (b1 % 16) * 4 + b2 / 64, b2 % 64;
    IndexOfChar(i0);
    IndexOfChar(i1);
    IndexOfChar(i2);
    IndexOfChar(i3);
    Split16(b0 % 4, b1 / 16);
    Split4(b1 % 16, b2 / 64);
    var s := Block(b0, b1, b2, 0);
    assert s == [Char(i0), Char(i1), Char(i2), Char(i3)];
    assert i0 * 4 + i1 / 16 == b0;
    assert (i1 % 16) * 16 + i2 / 4 == b1;
    assert (i2 % 4) * 64 + i3 == b2;
  }

  lemma TwoByteBlockRoundTrip(b0: Byte, b1: Byte)
    ensures DecodeBlock(Block(b0, b1, 0, 1)) == Some([b0, b1])
  {
    var i0, i1, i2 := b0 / 4, (b0 % 4) * 16 + b1 / 16, (b1 % 16) * 4;
    IndexOfChar(i0);
    IndexOfChar(i1);
    IndexOfChar(i2);
    Split16(b0 % 4, b1 / 16);
    Split4(b1 % 16, 0);
    var s := Block(b0, b1, 0, 1);
    assert s == [Char(i0), Char(i1), Char(i2), '='];
    assert i0 * 4 + i1 / 16 == b0;
    assert (i1 % 16) * 16 + i2 / 4 == b1;
  }

  lemma OneByteBlockRoundTrip(b0: Byte)
    ensures DecodeBlock(Block(b0, 0, 0, 2)) == Some([b0])
  {
    var i0, i1 := b0 / 4, (b0 % 4) * 16;
    IndexOfChar(i0);
    IndexOfChar(i1);
    Split16(b0 % 4, 0);
    var s := Block(b0, 0, 0, 2);
    assert s == [Char(i0), Char(i1), '=', '='];
    assert i0 * 4 + i1 / 16 == b0;
  }

  /** A full group in front of more text decodes to its three bytes followed by the rest. */
  lemma DecodeFullGroup(group: string, rest: string, head: seq<Byte>)
    requires |group| == 4 && DecodeBlock(group) == Some(head) && |head| == 3
    ensures Decode(group + rest) == match Decode(rest)
                                    case None => None
                                    case Some(tail) => Some(head + tail)
  {
    assert (group + rest)[..4] == group;
    assert (group + rest)[4..] == rest;
  }

  /** A final group decodes to its bytes. */
  lemma DecodeLastGroup(group: string, head: seq<Byte>)
    requires |group| == 4 && DecodeBlock(group) == Some(head)
    ensures Decode(group) == Some(head)
  {
    assert group[..4] == group;
    if |head| == 3 {
      DecodeFullGroup(group, "", head);
      assert group + "" == group;
      assert head + [] == head;
    }
  }

  lemma DecodeEncodeOne(b: seq<Byte>)
    requires |b| == 1
    ensures Decode(Encode(b)) == Some(b)
  {
    OneByteBlockRoundTrip(b[0]);
    DecodeLastGroup(Block(b[0], 0, 0, 2), [b[0]]);
    assert Encode(b) == Block(b[0], 0, 0, 2);
    assert b == [b[0]];
  }

  lemma DecodeEncodeTwo(b: seq<Byte>)
    requires |b| == 2
    ensures Decode(Encode(b)) == Some(b)
  {
    TwoByteBlockRoundTrip(b[0], b[1]);
    DecodeLastGroup(Block(b[0], b[1], 0, 1), [b[0], b[1]]);
    assert b == [b[0], b[1]];
  }

  /** The encoding of three or more bytes starts with the full block of the first three. */
  lemma EncodeFullBlock(b: seq<Byte>)
    requires |b| >= 3
    ensures Encode(b) == Block(b[0], b[1], b[2], 0) + Encode(b[3..])
  {
  }

  /** The full block of three bytes, followed by text that decodes to the bytes after them,
      decodes to all of them. */
  lemma DecodeFullBlock(b: seq<Byte>, encoded: string)
    requires |b| >= 3 && Decode(encoded) == Some(b[3..])
    ensures Decode(Block(b[0], b[1], b[2], 0) + encoded) == Some(b)
  {
    var head := [b[0], b[1], b[2]];
    FullBlockRoundTrip(b[0], b[1], b[2]);
    DecodeFullGroup(Block(b[0], b[1], b[2], 0), encoded, head);
    assert b == head + b[3..];
  }

  /** Decoding an encoding gives back exactly the bytes encoded. */
  lemma {:induction false} DecodeEncode(b: seq<Byte>)
    ensures Decode(Encode(b)) == Some(b)
    decreases |b|
  {
    if |b| == 1 {
      DecodeEncodeOne(b);
    } else if |b| == 2 {
      DecodeEncodeTwo(b);
    } else if |b| >= 3 {
      DecodeEncode(b[3..]);
      EncodeFullBlock(b);
      DecodeFullBlock(b, Encode(b[3..]));
    }
  }
}
