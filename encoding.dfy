/**
 * The two text encodings of bytes that the generator emits: lowercase hexadecimal
 * (Go's `hex.EncodeToString`) and padded standard base64 (RFC 4648 section 4,
 * Go's `base64.StdEncoding.EncodeToString`). Each comes with its decoder and a
 * round-trip lemma.
 */
module Encoding {
  import opened Strings

  // ---------------------------------------------------------------- hexadecimal

  predicate IsLowerHexDigit(c: char)
  {
    '0' <= c <= '9' || 'a' <= c <= 'f'
  }

  function HexDigit(v: nat): (c: char)
    requires v < 16
    ensures IsLowerHexDigit(c)
  {
    if v < 10 then ('0' as int + v) as char else ('a' as int + v - 10) as char
  }

  function HexDigitValue(c: char): (v: nat)
    requires IsLowerHexDigit(c)
    ensures v < 16
  {
    if c <= '9' then c as int - '0' as int else c as int - 'a' as int + 10
  }

  /** hex.EncodeToString: two lowercase digits per byte, high nibble first. */
  function HexEncode(bs: seq<byte>): (r: string)
    ensures |r| == 2 * |bs|
    ensures forall i :: 0 <= i < |r| ==> IsLowerHexDigit(r[i])
  {
    if bs == [] then [] else [HexDigit(bs[0] / 16), HexDigit(bs[0] % 16)] + HexEncode(bs[1..])
  }

  function HexDecode(s: string): seq<byte>
    requires |s| % 2 == 0
    requires forall i :: 0 <= i < |s| ==> IsLowerHexDigit(s[i])
  {
    if s == [] then [] else [HexDigitValue(s[0]) * 16 + HexDigitValue(s[1])] + HexDecode(s[2..])
  }

  lemma {:induction false} HexRoundTrip(bs: seq<byte>)
    ensures HexDecode(HexEncode(bs)) == bs
  {
    if bs != [] {
      var e := HexEncode(bs);
      assert e[2..] == HexEncode(bs[1..]);
      HexRoundTrip(bs[1..]);
    }
  }

  /** Lowercase hex text is ASCII, so converting it to bytes keeps its length. */
  lemma HexIsAscii(s: string)
    requires forall i :: 0 <= i < |s| ==> IsLowerHexDigit(s[i])
    ensures IsAscii(s)
  {
  }

  // ---------------------------------------------------------------- base64

  /** The value-to-character table of RFC 4648 section 4 (Table 1). */
  function Base64Char(v: nat): char
    requires v < 64
  {
    if v < 26 then ('A' as int + v) as char
    else if v < 52 then ('a' as int + v - 26) as char
    else if v < 62 then ('0' as int + v - 52) as char
    else if v == 62 then '+'
    else '/'
  }

  predicate IsBase64Char(c: char)
  {
    'A' <= c <= 'Z' || 'a' <= c <= 'z' || '0' <= c <= '9' || c == '+' || c == '/'
  }

  /** The character-to-value direction of the same table. */
  function Base64Value(c: char): (v: nat)
    requires IsBase64Char(c)
    ensures v < 64
  {
    if 'A' <= c <= 'Z' then c as int - 'A' as int
    else if 'a' <= c <= 'z' then c as int - 'a' as int + 26
    else if '0' <= c <= '9' then c as int - '0' as int + 52
    else if c == '+' then 62
    else 63
  }

  /** Every value has a character of the alphabet, from which the value reads back. */
  lemma Base64ValueOfChar(v: nat)
    requires v < 64
    ensures IsBase64Char(Base64Char(v)) && Base64Value(Base64Char(v)) == v
  {
  }

  /** Is `q` one 4-character group with padding at most in its last two places? */
  predicate IsQuantum(q: string)
  {
    && |q| == 4
    && IsBase64Char(q[0]) && IsBase64Char(q[1])
    && (IsBase64Char(q[2]) || q[2] == '=')
    && (IsBase64Char(q[3]) || q[3] == '=')
    && (q[2] == '=' ==> q[3] == '=')
  }

  /**
   * One encoding quantum (RFC 4648 section 4): 1 to 3 bytes become four characters,
   * the missing bytes read as zero bits and their places filled with '='.
   */
  function EncodeQuantum(g: seq<byte>): (q: string)
    requires 1 <= |g| <= 3
    ensures |q| == 4
  {
    var b0 := g[0];
    var b1 := if |g| > 1 then g[1] else 0;
    var b2 := if |g| > 2 then g[2] else 0;
    [Base64Char(b0 / 4), Base64Char(b0 % 4 * 16 + b1 / 16),
     if |g| > 1 then Base64Char(b1 % 16 * 4 + b2 / 64) else '=',
     if |g| > 2 then Base64Char(b2 % 64) else '=']
  }

  /** A quantum pads exactly the places of the missing bytes. */
  lemma EncodeQuantumShape(g: seq<byte>)
    requires 1 <= |g| <= 3
    ensures var q := EncodeQuantum(g);
      && IsQuantum(q)
      && (q[2] == '=' <==> |g| == 1)
      && (q[3] == '=' <==> |g| <= 2)
  {
    var b0 := g[0];
    var b1 := if |g| > 1 then g[1] else 0;
    var b2 := if |g| > 2 then g[2] else 0;
    Base64ValueOfChar(b0 / 4);
    Base64ValueOfChar(b0 % 4 * 16 + b1 / 16);
    Base64ValueOfChar(b1 % 16 * 4 + b2 / 64);
    Base64ValueOfChar(b2 % 64);
  }

  /** The bytes whose bits are the 6-bit groups v0 v1 (one byte), v0..v2 (two) or v0..v3 (three). */
  function Join1(v0: nat, v1: nat): seq<byte>
    requires v0 < 64 && v1 < 64
  {
    [v0 * 4 + v1 / 16]
  }

  function Join2(v0: nat, v1: nat, v2: nat): seq<byte>
    requires v0 < 64 && v1 < 64 && v2 < 64
  {
    [v0 * 4 + v1 / 16, v1 % 16 * 16 + v2 / 4]
  }

  function Join3(v0: nat, v1: nat, v2: nat, v3: nat): seq<byte>
    requires v0 < 64 && v1 < 64 && v2 < 64 && v3 < 64
  {
    [v0 * 4 + v1 / 16, v1 % 16 * 16 + v2 / 4, v2 % 4 * 64 + v3]
  }

  /** One decoding quantum: the bits of the non-pad characters, regrouped into bytes. */
  function DecodeQuantum(q: string): (g: seq<byte>)
    requires IsQuantum(q)
    ensures 1 <= |g| <= 3
  {
    var v0, v1 := Base64Value(q[0]), Base64Value(q[1]);
    if q[2] == '=' then Join1(v0, v1)
    else if q[3] == '=' then Join2(v0, v1, Base64Value(q[2]))
    else Join3(v0, v1, Base64Value(q[2]), Base64Value(q[3]))
  }

  lemma QuantumRoundTrip(g: seq<byte>)
    requires 1 <= |g| <= 3
    ensures IsQuantum(EncodeQuantum(g)) && DecodeQuantum(EncodeQuantum(g)) == g
  {
    EncodeQuantumShape(g);
    if |g| == 1 {
      assert g == [g[0]];
      QuantumRoundTrip1(g[0]);
    } else if |g| == 2 {
      assert g == [g[0], g[1]];
      QuantumRoundTrip2(g[0], g[1]);
    } else {
      assert g == [g[0], g[1], g[2]];
      QuantumRoundTrip3(g[0], g[1], g[2]);
    }
  }

  lemma QuantumRoundTrip1(b0: byte)
    ensures IsQuantum(EncodeQuantum([b0])) && DecodeQuantum(EncodeQuantum([b0])) == [b0]
  {
    var v0, v1 := b0 / 4, b0 % 4 * 16;
    EncodeChars1(b0);
    DecodeChars1(v0, v1);
    Sextets1(b0);
  }

  lemma EncodeChars1(b0: byte)
    ensures EncodeQuantum([b0]) == [Base64Char(b0 / 4), Base64Char(b0 % 4 * 16), '=', '=']
  {
  }

  lemma DecodeChars1(v0: nat, v1: nat)
    requires v0 < 64 && v1 < 64
    ensures var q := [Base64Char(v0), Base64Char(v1), '=', '='];
      IsQuantum(q) && DecodeQuantum(q) == Join1(v0, v1)
  {
    Base64ValueOfChar(v0);
    Base64ValueOfChar(v1);
  }

  /** One byte split into two 6-bit groups (the last with four zero bits) and joined again. */
  lemma Sextets1(b0: byte)
    ensures Join1(b0 / 4, b0 % 4 * 16) == [b0]
  {
  }

  lemma QuantumRoundTrip2(b0: byte, b1: byte)
    ensures IsQuantum(EncodeQuantum([b0, b1])) && DecodeQuantum(EncodeQuantum([b0, b1])) == [b0, b1]
  {
    var v0, v1, v2 := b0 / 4, b0 % 4 * 16 + b1 / 16, b1 % 16 * 4;
    EncodeChars2(b0, b1);
    DecodeChars2(v0, v1, v2);
    Sextets2(b0, b1);
  }

  lemma EncodeChars2(b0: byte, b1: byte)
    ensures EncodeQuantum([b0, b1])
      == [Base64Char(b0 / 4), Base64Char(b0 % 4 * 16 + b1 / 16), Base64Char(b1 % 16 * 4), '=']
  {
  }

  lemma DecodeChars2(v0: nat, v1: nat, v2: nat)
    requires v0 < 64 && v1 < 64 && v2 < 64
    ensures var q := [Base64Char(v0), Base64Char(v1), Base64Char(v2), '='];
      IsQuantum(q) && DecodeQuantum(q) == Join2(v0, v1, v2)
  {
    Base64ValueOfChar(v0);
    Base64ValueOfChar(v1);
    Base64ValueOfChar(v2);
  }

  /** Two bytes split into three 6-bit groups (the last with two zero bits) and joined again. */
  lemma Sextets2(b0: byte, b1: byte)
    ensures Join2(b0 / 4, b0 % 4 * 16 + b1 / 16, b1 % 16 * 4) == [b0, b1]
  {
  }

  lemma QuantumRoundTrip3(b0: byte, b1: byte, b2: byte)
    ensures IsQuantum(EncodeQuantum([b0, b1, b2])) && DecodeQuantum(EncodeQuantum([b0, b1, b2])) == [b0, b1, b2]
  {
    var v0, v1, v2, v3 := b0 / 4, b0 % 4 * 16 + b1 / 16, b1 % 16 * 4 + b2 / 64, b2 % 64;
    EncodeChars3(b0, b1, b2);
    DecodeChars3(v0, v1, v2, v3);
    Sextets3(b0, b1, b2);
  }

  lemma EncodeChars3(b0: byte, b1: byte, b2: byte)
    ensures EncodeQuantum([b0, b1, b2])
      == [Base64Char(b0 / 4), Base64Char(b0 % 4 * 16 + b1 / 16), Base64Char(b1 % 16 * 4 + b2 / 64), Base64Char(b2 % 64)]
  {
  }

  lemma DecodeChars3(v0: nat, v1: nat, v2: nat, v3: nat)
    requires v0 < 64 && v1 < 64 && v2 < 64 && v3 < 64
    ensures var q := [Base64Char(v0), Base64Char(v1), Base64Char(v2), Base64Char(v3)];
      IsQuantum(q) && DecodeQuantum(q) == Join3(v0, v1, v2, v3)
  {
    Base64ValueOfChar(v0);
    Base64ValueOfChar(v1);
    Base64ValueOfChar(v2);
    Base64ValueOfChar(v3);
  }

  /** Three bytes split into four 6-bit groups and joined again. */
  lemma Sextets3(b0: byte, b1: byte, b2: byte)
    ensures Join3(b0 / 4, b0 % 4 * 16 + b1 / 16, b1 % 16 * 4 + b2 / 64, b2 % 64) == [b0, b1, b2]
  {
  }

  /**
   * base64.StdEncoding.EncodeToString: the input read in 3-byte groups, each
   * group one quantum; only the last group may be short.
   */
  function Base64Encode(bs: seq<byte>): (r: string)
    ensures |r| == 4 * ((|bs| + 2) / 3)
  {
    if |bs| == 0 then ""
    else if |bs| <= 3 then EncodeQuantum(bs)
    else
      assert (|bs| + 2) / 3 == (|bs| - 1) / 3 + 1;
      EncodeQuantum(bs[..3]) + Base64Encode(bs[3..])
  }

  /** A sequence of quanta of which only the last may hold padding. */
  predicate IsPaddedBase64(s: string)
    decreases |s|
  {
    if s == [] then true
    else |s| >= 4 && IsQuantum(s[..4]) && (|s| > 4 ==> s[2] != '=' && s[3] != '=' && IsPaddedBase64(s[4..]))
  }

  /** base64.StdEncoding.DecodeString on well-formed input: the quanta decoded one after the other. */
  function Base64Decode(s: string): seq<byte>
    requires IsPaddedBase64(s)
    decreases |s|
  {
    if s == [] then [] else DecodeQuantum(s[..4]) + (if |s| > 4 then Base64Decode(s[4..]) else [])
  }

  /** Every character of an encoding is from the alphabet or is the pad '='. */
  lemma {:induction false} Base64EncodeAlphabet(bs: seq<byte>)
    ensures forall i :: 0 <= i < |Base64Encode(bs)| ==>
      IsBase64Char(Base64Encode(bs)[i]) || Base64Encode(bs)[i] == '='
  {
    if 1 <= |bs| <= 3 {
      EncodeQuantumShape(bs);
    } else if |bs| > 3 {
      Base64EncodeAlphabet(bs[3..]);
      EncodeQuantumShape(bs[..3]);
      var r := Base64Encode(bs);
      var q := EncodeQuantum(bs[..3]);
      var t := Base64Encode(bs[3..]);
      assert r == q + t;
      forall i | 0 <= i < |r| ensures IsBase64Char(r[i]) || r[i] == '=' {
        if i >= 4 { assert r[i] == t[i - 4]; }
      }
    }
  }

  /** Decoding an encoding gives back the bytes; the encoding is well-formed padded base64. */
  lemma {:induction false} Base64RoundTrip(bs: seq<byte>)
    ensures IsPaddedBase64(Base64Encode(bs))
    ensures Base64Decode(Base64Encode(bs)) == bs
  {
    if 1 <= |bs| <= 3 {
      var r := Base64Encode(bs);
      assert r[..4] == r;
      QuantumRoundTrip(bs);
    } else if |bs| > 3 {
      Base64RoundTrip(bs[3..]);
      var r := Base64Encode(bs);
      var q := EncodeQuantum(bs[..3]);
      var t := Base64Encode(bs[3..]);
      assert r == q + t;
      assert r[..4] == q && r[4..] == t;
      QuantumRoundTrip(bs[..3]);
      EncodeQuantumShape(bs[..3]);
      assert bs == bs[..3] + bs[3..];
    }
  }
}
