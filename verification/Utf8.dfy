/** UTF-8 as the runtime writes and reads it (RFC 3629): an ill-formed sequence reads as replacement characters. */
module Utf8 {

  /** Octets. */
  newtype byte = b: int | 0 <= b < 256

  const REPLACEMENT: char := '\U{FFFD}'

  function EncodeChar(c: char): (bs: seq<byte>)
    ensures 1 <= |bs| <= 4
  {
    var n := c as int;
    if n < 0x80 then [n as byte]
    else if n < 0x800 then [(0xC0 + n / 64) as byte, Trail(n)]
    else if n < 0x10000 then [(0xE0 + n / 4096) as byte, Trail(n / 64), Trail(n)]
    else [(0xF0 + n / 262144) as byte, Trail(n / 4096), Trail(n / 64), Trail(n)]
  }

  function Trail(n: nat): byte {
    (0x80 + n % 64) as byte
  }

  function Encode(text: string): seq<byte> {
    if text == "" then [] else EncodeChar(text[0]) + Encode(text[1..])
  }

  predicate IsTrail(b: byte) {
    0x80 <= b < 0xC0
  }

  function Bits(b: byte): nat
    requires IsTrail(b)
  {
    b as nat - 0x80
  }

  /** The second octet of a three or four octet sequence: its range shuts out overlong forms, surrogates and numbers
      beyond the last character. */
  predicate IsSecond(lead: byte, b: byte) {
    IsTrail(b)
    && (lead == 0xE0 ==> 0xA0 <= b) && (lead == 0xED ==> b < 0xA0)
    && (lead == 0xF0 ==> 0x90 <= b) && (lead == 0xF4 ==> b < 0x90)
  }

  /** The first character of the octets, and how many of them it takes up. */
  function First(bs: seq<byte>): (r: (char, nat))
    requires bs != []
    ensures 1 <= r.1 <= |bs|
  {
    var lead := bs[0];
    if lead < 0x80 then (lead as int as char, 1)
    else if 0xC2 <= lead < 0xE0 then FirstOfTwo(bs)
    else if 0xE0 <= lead < 0xF0 then FirstOfThree(bs)
    else if 0xF0 <= lead < 0xF5 then FirstOfFour(bs)
    else (REPLACEMENT, 1)
  }

  function FirstOfTwo(bs: seq<byte>): (r: (char, nat))
    requires bs != [] && 0xC2 <= bs[0] < 0xE0
    ensures 1 <= r.1 <= |bs|
  {
    if |bs| < 2 || !IsTrail(bs[1]) then (REPLACEMENT, 1)
    else (((bs[0] as int - 0xC0) * 64 + Bits(bs[1])) as char, 2)
  }

  function FirstOfThree(bs: seq<byte>): (r: (char, nat))
    requires bs != [] && 0xE0 <= bs[0] < 0xF0
    ensures 1 <= r.1 <= |bs|
  {
    if |bs| < 2 || !IsSecond(bs[0], bs[1]) then (REPLACEMENT, 1)
    else if |bs| < 3 || !IsTrail(bs[2]) then (REPLACEMENT, 2)
    else (((bs[0] as int - 0xE0) * 4096 + Bits(bs[1]) * 64 + Bits(bs[2])) as char, 3)
  }

  function FirstOfFour(bs: seq<byte>): (r: (char, nat))
    requires bs != [] && 0xF0 <= bs[0] < 0xF5
    ensures 1 <= r.1 <= |bs|
  {
    if |bs| < 2 || !IsSecond(bs[0], bs[1]) then (REPLACEMENT, 1)
    else if |bs| < 3 || !IsTrail(bs[2]) then (REPLACEMENT, 2)
    else if |bs| < 4 || !IsTrail(bs[3]) then (REPLACEMENT, 3)
    else (((bs[0] as int - 0xF0) * 262144 + Bits(bs[1]) * 4096 + Bits(bs[2]) * 64 + Bits(bs[3])) as char, 4)
  }

  function Decode(bs: seq<byte>): string {
    if bs == [] then ""
    else
      var (c, n) := First(bs);
      [c] + Decode(bs[n..])
  }

  /** A character's own octets read back as the character, whatever follows. */
  lemma FirstOfChar(c: char, rest: seq<byte>)
    ensures First(EncodeChar(c) + rest) == (c, |EncodeChar(c)|)
  {
    var n := c as int;
    if n < 0x800 {
    } else if n < 0x10000 {
      ThreeParts(n);
    } else {
      FourParts(n);
    }
  }

  lemma ThreeParts(n: nat)
    requires n < 0x10000
    ensures n / 4096 * 4096 + n / 64 % 64 * 64 + n % 64 == n
  {
    assert n / 4096 == n / 64 / 64;
  }

  lemma FourParts(n: nat)
    requires n < 0x110000
    ensures n / 262144 * 262144 + n / 4096 % 64 * 4096 + n / 64 % 64 * 64 + n % 64 == n
  {
    assert n / 4096 == n / 64 / 64 && n / 262144 == n / 4096 / 64;
  }

  /** Every text is recovered from its octets. */
  lemma {:induction false} DecodeOfEncode(text: string)
    ensures Decode(Encode(text)) == text
  {
    if text != "" {
      hide EncodeChar, First;
      var c := EncodeChar(text[0]);
      FirstOfChar(text[0], Encode(text[1..]));
      DecodeOfEncode(text[1..]);
      assert Encode(text)[|c|..] == Encode(text[1..]);
      assert text == [text[0]] + text[1..];
    }
  }

  /** The table of section 3 of RFC 3629: how many octets a character takes, what they begin with, and the bits they
      carry. */
  lemma Table(c: char)
    ensures var bs, n := EncodeChar(c), c as int;
      && (n < 0x80 ==> bs == [n as byte])
      && (0x80 <= n < 0x800 ==>
            |bs| == 2 && 0xC0 <= bs[0] < 0xE0 && IsTrail(bs[1])
            && (bs[0] as int - 0xC0) * 0x40 + (bs[1] as int - 0x80) == n)
      && (0x800 <= n < 0x10000 ==>
            |bs| == 3 && 0xE0 <= bs[0] < 0xF0 && IsTrail(bs[1]) && IsTrail(bs[2])
            && ((bs[0] as int - 0xE0) * 0x40 + (bs[1] as int - 0x80)) * 0x40 + (bs[2] as int - 0x80) == n)
      && (0x10000 <= n ==>
            |bs| == 4 && 0xF0 <= bs[0] < 0xF8 && IsTrail(bs[1]) && IsTrail(bs[2]) && IsTrail(bs[3])
            && (((bs[0] as int - 0xF0) * 0x40 + (bs[1] as int - 0x80)) * 0x40 + (bs[2] as int - 0x80)) * 0x40
               + (bs[3] as int - 0x80) == n)
  {
    var n := c as int;
    if 0x800 <= n < 0x10000 {
      ThreeParts(n);
    } else if 0x10000 <= n {
      FourParts(n);
    }
  }

  /** Octets that begin no sequence, and leads whose second octet does not fit, read as one replacement character, and
      reading goes on right after them. */
  lemma IllFormed(lead: byte, rest: seq<byte>)
    requires lead >= 0x80
    requires lead < 0xC2 || lead >= 0xF5 || rest == [] || !IsTrail(rest[0])
             || (lead == 0xE0 && rest[0] < 0xA0) || (lead == 0xED && rest[0] >= 0xA0)
             || (lead == 0xF0 && rest[0] < 0x90) || (lead == 0xF4 && rest[0] >= 0x90)
    ensures Decode([lead] + rest) == [REPLACEMENT] + Decode(rest)
  {
    assert ([lead] + rest)[1..] == rest;
  }

  /** A sequence cut short reads as one replacement character for the octets that fit. */
  lemma CutShort(lead: byte, second: byte, rest: seq<byte>)
    requires 0xE0 <= lead < 0xF5 && IsSecond(lead, second) && (rest == [] || !IsTrail(rest[0]))
    ensures Decode([lead, second] + rest) == [REPLACEMENT] + Decode(rest)
  {
    assert ([lead, second] + rest)[2..] == rest;
  }

  lemma CutShortOfFour(lead: byte, second: byte, third: byte, rest: seq<byte>)
    requires 0xF0 <= lead < 0xF5 && IsSecond(lead, second) && IsTrail(third) && (rest == [] || !IsTrail(rest[0]))
    ensures Decode([lead, second, third] + rest) == [REPLACEMENT] + Decode(rest)
  {
    assert ([lead, second, third] + rest)[3..] == rest;
  }
}
