/**
 * The parts of Go's `strings`, `strconv` and string-to-bytes conversion that the
 * generator relies on, stated over Dafny strings (sequences of Unicode scalar values).
 */
module Strings {

  /** A Go `byte`. */
  type byte = x: int | 0 <= x < 256

  predicate HasPrefix(s: string, prefix: string)
  {
    |prefix| <= |s| && s[..|prefix|] == prefix
  }

  predicate HasSuffix(s: string, suffix: string)
  {
    |suffix| <= |s| && s[|s| - |suffix|..] == suffix
  }

  /** strings.TrimPrefix: drops one leading copy of `prefix`, if there is one. */
  function TrimPrefix(s: string, prefix: string): (r: string)
    ensures HasPrefix(s, prefix) ==> prefix + r == s
    ensures !HasPrefix(s, prefix) ==> r == s
  {
    if HasPrefix(s, prefix) then s[|prefix|..] else s
  }

  /** strings.TrimSuffix: drops one trailing copy of `suffix`, if there is one. */
  function TrimSuffix(s: string, suffix: string): (r: string)
    ensures HasSuffix(s, suffix) ==> r + suffix == s
    ensures !HasSuffix(s, suffix) ==> r == s
  {
    if HasSuffix(s, suffix) then s[..|s| - |suffix|] else s
  }

  lemma TrimSuffixOfAppended(s: string, suffix: string)
    ensures TrimSuffix(s + suffix, suffix) == s
  {
    assert (s + suffix)[|s + suffix| - |suffix|..] == suffix;
    assert (s + suffix)[..|s|] == s;
  }

  /** The first index at or after `k` whose character is not in `cutset` (or |s|). */
  function CutLeft(s: string, cutset: set<char>, k: nat): (lo: nat)
    requires k <= |s|
    ensures k <= lo <= |s|
    ensures forall i :: k <= i < lo ==> s[i] in cutset
    ensures lo < |s| ==> s[lo] !in cutset
    decreases |s| - k
  {
    if k < |s| && s[k] in cutset then CutLeft(s, cutset, k + 1) else k
  }

  /** The last end at or before `hi`, and not before `lo`, whose previous character is not in `cutset`. */
  function CutRight(s: string, cutset: set<char>, lo: nat, hi: nat): (e: nat)
    requires lo <= hi <= |s|
    ensures lo <= e <= hi
    ensures forall i :: e <= i < hi ==> s[i] in cutset
    ensures e > lo ==> s[e - 1] !in cutset
  {
    if hi > lo && s[hi - 1] in cutset then CutRight(s, cutset, lo, hi - 1) else hi
  }

  /**
   * strings.Trim: the longest infix of `s` that neither starts nor ends with a
   * character of `cutset`; everything cut away on either side is made of cutset
   * characters.
   */
  function Trim(s: string, cutset: set<char>): (r: string)
    ensures var lo := CutLeft(s, cutset, 0);
      && lo + |r| <= |s| && r == s[lo..lo + |r|]
      && (forall i :: 0 <= i < lo ==> s[i] in cutset)
      && (forall i :: lo + |r| <= i < |s| ==> s[i] in cutset)
    ensures r != [] ==> r[0] !in cutset && r[|r| - 1] !in cutset
  {
    var lo := CutLeft(s, cutset, 0);
    var hi := CutRight(s, cutset, lo, |s|);
    s[lo..hi]
  }

  /** The cut set "\n  " that keyring.go uses for every rendered fragment. */
  const Whitespace: set<char> := {'\n', ' '}

  function LowerAscii(c: char): char
  {
    if 'A' <= c <= 'Z' then (c as int + 32) as char else c
  }

  /** strings.ToLower, restricted to ASCII case mapping. */
  function ToLower(s: string): (r: string)
    ensures |r| == |s|
    ensures forall i :: 0 <= i < |s| ==> !('A' <= r[i] <= 'Z')
    ensures forall i :: 0 <= i < |s| && !('A' <= s[i] <= 'Z') ==> r[i] == s[i]
    ensures forall i :: 0 <= i < |s| && 'A' <= s[i] <= 'Z' ==> r[i] as int == s[i] as int + 32
  {
    seq(|s|, i requires 0 <= i < |s| => LowerAscii(s[i]))
  }

  lemma ToLowerConcat(a: string, b: string)
    ensures ToLower(a + b) == ToLower(a) + ToLower(b)
  {
  }

  /** The number of bytes UTF-8 uses for a code point (RFC 3629 section 3). */
  function RuneLength(n: int): nat
  {
    if n < 0x80 then 1 else if n < 0x800 then 2 else if n < 0x1_0000 then 3 else 4
  }

  /**
   * The code point an encoded sequence of one to four bytes carries: the payload
   * bits of the lead byte followed by six bits from each continuation byte.
   */
  function ScalarOf(r: seq<byte>): int
    requires 1 <= |r| <= 4
  {
    if |r| == 1 then r[0] as int
    else if |r| == 2 then (r[0] as int - 0xC0) * 0x40 + (r[1] as int - 0x80)
    else if |r| == 3 then (r[0] as int - 0xE0) * 0x1000 + (r[1] as int - 0x80) * 0x40 + (r[2] as int - 0x80)
    else (r[0] as int - 0xF0) * 0x4_0000 + (r[1] as int - 0x80) * 0x1000 + (r[2] as int - 0x80) * 0x40 + (r[3] as int - 0x80)
  }

  predicate IsContinuation(b: byte)
  {
    0x80 <= b <= 0xBF
  }

  function EncodeTwo(n: int): (r: seq<byte>)
    requires 0x80 <= n < 0x800
    ensures |r| == 2 && 0xC2 <= r[0] <= 0xDF && IsContinuation(r[1])
    ensures ScalarOf(r) == n
  {
    [0xC0 + n / 64, 0x80 + n % 64]
  }

  function EncodeThree(n: int): (r: seq<byte>)
    requires 0x800 <= n < 0x1_0000
    ensures |r| == 3 && 0xE0 <= r[0] <= 0xEF && IsContinuation(r[1]) && IsContinuation(r[2])
    ensures ScalarOf(r) == n
  {
    var hi, mid, lo := n / 4096, (n / 64) % 64, n % 64;
    assert n / 64 == hi * 64 + mid;
    [0xE0 + hi, 0x80 + mid, 0x80 + lo]
  }

  function EncodeFour(n: int): (r: seq<byte>)
    requires 0x1_0000 <= n < 0x11_0000
    ensures |r| == 4 && 0xF0 <= r[0] <= 0xF4 && IsContinuation(r[1]) && IsContinuation(r[2]) && IsContinuation(r[3])
    ensures ScalarOf(r) == n
  {
    var top, hi, mid, lo := n / 0x4_0000, (n / 4096) % 64, (n / 64) % 64, n % 64;
    assert n / 64 == (n / 4096) * 64 + mid;
    assert n / 4096 == top * 64 + hi;
    [0xF0 + top, 0x80 + hi, 0x80 + mid, 0x80 + lo]
  }

  /**
   * The UTF-8 encoding of one Unicode scalar value (RFC 3629 section 3): the
   * shortest form, a lead byte marking the length, continuation bytes in
   * 0x80..0xBF, and the code point recovered from the payload bits.
   */
  function EncodeRune(c: char): (r: seq<byte>)
    ensures |r| == RuneLength(c as int)
    ensures |r| == 1 ==> r[0] < 0x80
    ensures |r| == 2 ==> 0xC2 <= r[0] <= 0xDF
    ensures |r| == 3 ==> 0xE0 <= r[0] <= 0xEF
    ensures |r| == 4 ==> 0xF0 <= r[0] <= 0xF4
    ensures forall i :: 1 <= i < |r| ==> IsContinuation(r[i])
    ensures ScalarOf(r) == c as int
  {
    var n := c as int;
    if n < 0x80 then [n]
    else if n < 0x800 then EncodeTwo(n)
    else if n < 0x1_0000 then EncodeThree(n)
    else EncodeFour(n)
  }

  /** Go's `[]byte(s)`: the UTF-8 encoding of a string. */
  function Utf8(s: string): (r: seq<byte>)
    ensures |r| >= |s|
    ensures |s| == 1 ==> r == EncodeRune(s[0])
  {
    if s == [] then [] else EncodeRune(s[0]) + Utf8(s[1..])
  }

  /** The encoding of a string is the encodings of its parts, one after the other. */
  lemma {:induction false} Utf8Concat(a: string, b: string)
    ensures Utf8(a + b) == Utf8(a) + Utf8(b)
  {
    if a == [] {
      assert a + b == b;
    } else {
      assert (a + b)[0] == a[0];
      assert (a + b)[1..] == a[1..] + b;
      Utf8Concat(a[1..], b);
    }
  }

  predicate IsAscii(s: string)
  {
    forall i :: 0 <= i < |s| ==> s[i] as int < 0x80
  }

  /** An ASCII string converts to exactly one byte per character, its code point. */
  lemma {:induction false} Utf8OfAscii(s: string)
    requires IsAscii(s)
    ensures |Utf8(s)| == |s|
    ensures forall i :: 0 <= i < |s| ==> Utf8(s)[i] == s[i] as int
  {
    if s != [] {
      Utf8OfAscii(s[1..]);
    }
  }

  function DigitChar(d: nat): char
    requires d < 10
  {
    ('0' as int + d) as char
  }

  /** strconv.Itoa for non-negative values: the shortest decimal numeral. */
  function Itoa(n: nat): (r: string)
    ensures |r| >= 1
    ensures forall i :: 0 <= i < |r| ==> '0' <= r[i] <= '9'
    ensures r[0] == '0' ==> n == 0 && r == "0"
  {
    if n < 10 then [DigitChar(n)] else Itoa(n / 10) + [DigitChar(n % 10)]
  }

  /** The value of a numeral made of decimal digits. */
  function DecimalValue(s: string): nat
    requires forall i :: 0 <= i < |s| ==> '0' <= s[i] <= '9'
  {
    if s == [] then 0 else DecimalValue(s[..|s| - 1]) * 10 + (s[|s| - 1] as int - '0' as int)
  }

  lemma {:induction false} ItoaRoundTrip(n: nat)
    ensures DecimalValue(Itoa(n)) == n
  {
    if n >= 10 {
      ItoaRoundTrip(n / 10);
      var s := Itoa(n);
      assert s[..|s| - 1] == Itoa(n / 10);
    }
  }
}
