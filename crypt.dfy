/**
 * lib/crypt.go: hash dispatch and hex digests, PKCS#7 padding (RFC 5652
 * section 6.3) and AES-CBC encryption (NIST SP 800-38A section 6.2).
 * The SHA-512 compression (FIPS 180-4) and the AES block function (FIPS 197)
 * are parameters: only what this file builds around them is modelled.
 */
module Crypt {
  import opened Wrappers
  import opened Strings
  import opened Encoding

  /** aes.BlockSize */
  const BlockSize: nat := 16

  /** A SHA-512 digest: 64 bytes. */
  type Digest = d: seq<byte> | |d| == 64 witness seq(64, i => 0)

  /** One AES block. */
  type Block = b: seq<byte> | |b| == BlockSize witness seq(16, i => 0)

  /** sha512.New().Write(s).Sum(nil): the digest of a byte string. */
  type Hasher = seq<byte> -> Digest

  /** The AES block function under a given key. */
  type BlockFunction = (seq<byte>, Block) -> Block

  // ---------------------------------------------------------------- hashing

  /** GenerateSHA512: the digest rendered as 128 lowercase hex digits, from which it can be read back. */
  function GenerateSHA512(sha: Hasher, s: seq<byte>): (h: string)
    ensures |h| == 128
    ensures forall i :: 0 <= i < |h| ==> IsLowerHexDigit(h[i])
    ensures HexDecode(h) == sha(s)
  {
    HexRoundTrip(sha(s));
    HexEncode(sha(s))
  }

  /** GenerateHash: "sha512" is the only hash type; any other one is an error. */
  function GenerateHash(sha: Hasher, s: seq<byte>, hashType: string): (r: Result<string>)
    ensures r.Ok? <==> hashType == "sha512"
    ensures r.Ok? ==> r.value == GenerateSHA512(sha, s)
    ensures r.Err? ==> r.message == "[!] GenerateHash: " + hashType + " not supported"
  {
    if hashType == "sha512" then Ok(GenerateSHA512(sha, s))
    else Err("[!] GenerateHash: " + hashType + " not supported")
  }

  /** The first 32 characters of a digest's hex text are 32 ASCII bytes: an AES-256 key. */
  lemma HexPrefixIsAes256Key(sha: Hasher, s: seq<byte>)
    ensures |Utf8(GenerateSHA512(sha, s)[..32])| == 32
    ensures forall i :: 0 <= i < 32 ==> Utf8(GenerateSHA512(sha, s)[..32])[i] == GenerateSHA512(sha, s)[i] as int
  {
    var h := GenerateSHA512(sha, s)[..32];
    HexIsAscii(h);
    Utf8OfAscii(h);
  }

  // ---------------------------------------------------------------- PKCS#7

  /** The pad count for a payload of `len` bytes: always between 1 and 16. */
  function PadCount(len: nat): (n: nat)
    ensures 1 <= n <= BlockSize
    ensures (len + n) % BlockSize == 0
  {
    BlockSize - len % BlockSize
  }

  /** The padded payload: the input followed by `n` bytes of value `n`. */
  function Pkcs7Padding(b: seq<byte>): (pb: seq<byte>)
    ensures |pb| == |b| + PadCount(|b|) && |pb| > |b| && |pb| % BlockSize == 0
    ensures pb[..|b|] == b
    ensures forall i :: |b| <= i < |pb| ==> pb[i] == PadCount(|b|)
  {
    var n := PadCount(|b|);
    b + seq(n, i => n)
  }

  /** Removing PKCS#7 padding: the last byte says how many bytes to strip, and they must all say so. */
  function Pkcs7Unpad(pb: seq<byte>): Option<seq<byte>>
  {
    if pb == [] || |pb| % BlockSize != 0 then None
    else
      var n := pb[|pb| - 1];
      if n < 1 || n > BlockSize || exists i :: |pb| - n <= i < |pb| && pb[i] != n then None
      else Some(pb[..|pb| - n])
  }

  lemma Pkcs7RoundTrip(b: seq<byte>)
    ensures Pkcs7Unpad(Pkcs7Padding(b)) == Some(b)
  {
    var pb := Pkcs7Padding(b);
    assert pb[|pb| - 1] == PadCount(|b|);
  }

  /** Unpadding accepts exactly the paddings: whatever it accepts pads back to itself. */
  lemma Pkcs7UnpadInverts(pb: seq<byte>, b: seq<byte>)
    requires Pkcs7Unpad(pb) == Some(b)
    ensures Pkcs7Padding(b) == pb
  {
    var n := pb[|pb| - 1];
    assert |b| == |pb| - n;
    assert PadCount(|b|) == n;
    var q := Pkcs7Padding(b);
    forall i | 0 <= i < |pb| ensures q[i] == pb[i] {
      if i < |b| {
        assert q[i] == q[..|b|][i];
      }
    }
  }

  /** pkcs7Pad: rejects an empty (or nil) input, otherwise allocates and fills the padded copy. */
  method Pkcs7Pad(b: seq<byte>) returns (r: Result<seq<byte>>)
    ensures b == [] ==> r == Err("[!] pkcs7Pad: invalid PKCS7 data (empty or not padded)")
    ensures b != [] ==> r == Ok(Pkcs7Padding(b))
  {
    // The guard on aes.BlockSize <= 0 tests a constant 16 and is left out.
    if |b| == 0 {
      return Err("[!] pkcs7Pad: invalid PKCS7 data (empty or not padded)");
    }
    var n := BlockSize - |b| % BlockSize;
    var pb := new byte[|b| + n];
    var i := 0;
    while i < |b|
      invariant 0 <= i <= |b|
      invariant pb[..i] == b[..i]
    {
      pb[i] := b[i];
      i := i + 1;
    }
    while i < |b| + n
      invariant |b| <= i <= |b| + n
      invariant pb[..|b|] == b
      invariant forall k :: |b| <= k < i ==> pb[k] == n
    {
      pb[i] := n;
      i := i + 1;
    }
    assert pb[..] == Pkcs7Padding(b);
    return Ok(pb[..]);
  }

  // ---------------------------------------------------------------- AES-CBC

  /** Bitwise exclusive or of naturals, least significant bit first. */
  function Xor(a: nat, b: nat): nat
    decreases a + b
  {
    if a == 0 && b == 0 then 0 else (if a % 2 == b % 2 then 0 else 1) + 2 * Xor(a / 2, b / 2)
  }

  function Pow2(k: nat): (p: nat)
    ensures p >= 1
  {
    if k == 0 then 1 else 2 * Pow2(k - 1)
  }

  lemma {:induction false} XorBounded(a: nat, b: nat, k: nat)
    requires a < Pow2(k) && b < Pow2(k)
    ensures Xor(a, b) < Pow2(k)
    decreases a + b
  {
    if !(a == 0 && b == 0) {
      XorBounded(a / 2, b / 2, k - 1);
    }
  }

  lemma {:induction false} XorCancels(a: nat, b: nat)
    ensures Xor(a, Xor(a, b)) == b
    decreases a + b
  {
    if !(a == 0 && b == 0) {
      var h := Xor(a / 2, b / 2);
      var c := Xor(a, b);
      var bit := if a % 2 == b % 2 then 0 else 1;
      assert c == bit + 2 * h;
      assert c / 2 == h && c % 2 == bit;
      XorCancels(a / 2, b / 2);
      assert a != 0 || c != 0;
      assert Xor(a, c) == (if a % 2 == c % 2 then 0 else 1) + 2 * Xor(a / 2, c / 2);
    }
  }

  function XorByte(a: byte, b: byte): byte
  {
    assert Pow2(8) == 256;
    XorBounded(a, b, 8);
    Xor(a, b)
  }

  function XorBlock(a: Block, b: Block): Block
  {
    seq(BlockSize, i requires 0 <= i < BlockSize => XorByte(a[i], b[i]))
  }

  lemma XorBlockCancels(a: Block, b: Block)
    ensures XorBlock(a, XorBlock(a, b)) == b
  {
    forall i | 0 <= i < BlockSize ensures XorByte(a[i], XorByte(a[i], b[i])) == b[i] {
      XorCancels(a[i], b[i]);
    }
  }

  /** The bytes of a sequence of blocks, in order. */
  function Flatten(bs: seq<Block>): (r: seq<byte>)
    ensures |r| == BlockSize * |bs|
  {
    if bs == [] then [] else Flatten(bs[..|bs| - 1]) + bs[|bs| - 1]
  }

  /** A whole number of blocks' worth of bytes, cut into consecutive blocks. */
  function ToBlocks(p: seq<byte>): (bs: seq<Block>)
    requires |p| % BlockSize == 0
    ensures |bs| == |p| / BlockSize
    decreases |p|
  {
    if p == [] then [] else ToBlocks(p[..|p| - BlockSize]) + [p[|p| - BlockSize..]]
  }

  lemma {:induction false} FlattenToBlocks(p: seq<byte>)
    requires |p| % BlockSize == 0
    ensures Flatten(ToBlocks(p)) == p
    decreases |p|
  {
    if p != [] {
      var k := |p| - BlockSize;
      var front := ToBlocks(p[..k]);
      var bs := front + [p[k..]];
      assert ToBlocks(p) == bs;
      assert bs[..|bs| - 1] == front;
      FlattenToBlocks(p[..k]);
      assert Flatten(bs) == p[..k] + p[k..];
      assert p == p[..k] + p[k..];
    }
  }

  lemma {:induction false} ToBlocksFlatten(bs: seq<Block>)
    ensures ToBlocks(Flatten(bs)) == bs
  {
    if bs != [] {
      var n := |bs| - 1;
      ToBlocksFlatten(bs[..n]);
      var f := Flatten(bs);
      assert f[..|f| - BlockSize] == Flatten(bs[..n]);
      assert f[|f| - BlockSize..] == bs[n];
      assert bs == bs[..n] + [bs[n]];
    }
  }

  /** The block that chains into the next one: the IV before the first block, else the last ciphertext block. */
  function Chain(iv: Block, c: seq<Block>): Block
  {
    if c == [] then iv else c[|c| - 1]
  }

  /** CBC encryption (NIST SP 800-38A section 6.2), C_j = E(P_j xor C_{j-1}) with C_0 the IV. */
  function CbcEncrypt(e: BlockFunction, key: seq<byte>, iv: Block, p: seq<Block>): (c: seq<Block>)
    ensures |c| == |p|
  {
    if p == [] then []
    else
      var front := CbcEncrypt(e, key, iv, p[..|p| - 1]);
      front + [e(key, XorBlock(Chain(iv, front), p[|p| - 1]))]
  }

  /** CBC decryption, P_j = D(C_j) xor C_{j-1} with C_0 the IV. */
  function CbcDecrypt(d: BlockFunction, key: seq<byte>, iv: Block, c: seq<Block>): (p: seq<Block>)
    ensures |p| == |c|
  {
    if c == [] then []
    else
      var front := c[..|c| - 1];
      CbcDecrypt(d, key, iv, front) + [XorBlock(Chain(iv, front), d(key, c[|c| - 1]))]
  }

  /** Each ciphertext block is the encryption of its plaintext block xor the ciphertext block before it. */
  lemma {:induction false} CbcChaining(e: BlockFunction, key: seq<byte>, iv: Block, p: seq<Block>, j: nat)
    requires j < |p|
    ensures var c := CbcEncrypt(e, key, iv, p);
      c[j] == e(key, XorBlock(Chain(iv, c[..j]), p[j]))
  {
    var k := |p| - 1;
    var c := CbcEncrypt(e, key, iv, p);
    var front := CbcEncrypt(e, key, iv, p[..k]);
    assert c[..k] == front;
    if j < k {
      CbcChaining(e, key, iv, p[..k], j);
      assert c[..j] == front[..j];
    }
  }

  /** Each decrypted block depends only on its ciphertext block and the one before it. */
  lemma {:induction false} CbcDecryptChaining(d: BlockFunction, key: seq<byte>, iv: Block, c: seq<Block>, j: nat)
    requires j < |c|
    ensures CbcDecrypt(d, key, iv, c)[j] == XorBlock(Chain(iv, c[..j]), d(key, c[j]))
  {
    var k := |c| - 1;
    if j < k {
      CbcDecryptChaining(d, key, iv, c[..k], j);
      assert c[..k][..j] == c[..j];
    }
  }

  /** With D the inverse of E under the key, CBC decryption undoes CBC encryption. */
  lemma {:induction false} CbcRoundTrip(e: BlockFunction, d: BlockFunction, key: seq<byte>, iv: Block, p: seq<Block>)
    requires forall b: Block :: d(key, e(key, b)) == b
    ensures CbcDecrypt(d, key, iv, CbcEncrypt(e, key, iv, p)) == p
  {
    if p != [] {
      var k := |p| - 1;
      var front := CbcEncrypt(e, key, iv, p[..k]);
      var c := CbcEncrypt(e, key, iv, p);
      assert c[..k] == front;
      CbcRoundTrip(e, d, key, iv, p[..k]);
      XorBlockCancels(Chain(iv, front), p[k]);
      assert p == p[..k] + [p[k]];
    }
  }

  /** The message of aes.KeySizeError. */
  function KeySizeError(size: nat): string
  {
    "crypto/aes: invalid key size " + Itoa(size)
  }

  /** aes.NewCipher: accepts AES-128, AES-192 and AES-256 keys only. */
  function NewCipher(key: seq<byte>): (r: Result<seq<byte>>)
    ensures r.Ok? <==> |key| in {16, 24, 32}
    ensures r.Err? ==> r.message == KeySizeError(|key|)
  {
    if |key| in {16, 24, 32} then Ok(key) else Err(KeySizeError(|key|))
  }

  const PadError := "[!] pkcs7Pad: invalid PKCS7 data (empty or not padded)"

  /** The CBC encryption of the padded payload, as bytes: exactly as long as the padded payload. */
  function CbcCiphertext(e: BlockFunction, key: seq<byte>, iv: Block, text: seq<byte>): (c: seq<byte>)
    ensures |c| == |Pkcs7Padding(text)|
  {
    Flatten(CbcEncrypt(e, key, iv, ToBlocks(Pkcs7Padding(text))))
  }

  /**
   * What AESEncrypt returns: the padding error for an empty payload (before any
   * cipher is built), the key-size error for a bad key, else the base64 text of
   * the CBC ciphertext of the padded payload and, separately, of the IV.
   */
  function AesEncryption(e: BlockFunction, key: seq<byte>, text: seq<byte>, iv: Block): (r: Result<(string, string)>)
    ensures text == [] ==> r == Err(PadError)
    ensures text != [] && |key| !in {16, 24, 32} ==> r == Err(KeySizeError(|key|))
    ensures r.Ok? <==> text != [] && |key| in {16, 24, 32}
  {
    if text == [] then Err(PadError)
    else
      match NewCipher(key)
      case Err(m) => Err(m)
      case Ok(_) => Ok((Base64Encode(CbcCiphertext(e, key, iv, text)), Base64Encode(iv)))
  }

  /** The ciphertext text has 4 characters per started 3 bytes of padded payload; the IV text has 24. */
  lemma AesEncryptionLengths(e: BlockFunction, key: seq<byte>, text: seq<byte>, iv: Block)
    requires AesEncryption(e, key, text, iv).Ok?
    ensures var (ct, ivText) := AesEncryption(e, key, text, iv).value;
      |ct| == 4 * ((|Pkcs7Padding(text)| + 2) / 3) && |ivText| == 24
  {
    var c := CbcCiphertext(e, key, iv, text);
    assert AesEncryption(e, key, text, iv).value == (Base64Encode(c), Base64Encode(iv));
  }

  /**
   * The encrypted text decodes to a whole number of blocks whose CBC decryption,
   * once unpadded, is the whole payload; the IV text decodes to the IV.
   */
  lemma AesEncryptionRoundTrip(e: BlockFunction, d: BlockFunction, key: seq<byte>, text: seq<byte>, iv: Block)
    requires forall b: Block :: d(key, e(key, b)) == b
    requires AesEncryption(e, key, text, iv).Ok?
    ensures var (ct, ivText) := AesEncryption(e, key, text, iv).value;
      && IsPaddedBase64(ct) && IsPaddedBase64(ivText)
      && Base64Decode(ivText) == iv
      && |Base64Decode(ct)| % BlockSize == 0
      && Pkcs7Unpad(Flatten(CbcDecrypt(d, key, iv, ToBlocks(Base64Decode(ct))))) == Some(text)
  {
    var padded := Pkcs7Padding(text);
    var c := CbcEncrypt(e, key, iv, ToBlocks(padded));
    assert CbcCiphertext(e, key, iv, text) == Flatten(c);
    Base64RoundTrip(Flatten(c));
    Base64RoundTrip(iv);
    ToBlocksFlatten(c);
    CbcRoundTrip(e, d, key, iv, ToBlocks(padded));
    FlattenToBlocks(padded);
    Pkcs7RoundTrip(text);
  }

  /**
   * AESEncrypt: pads, builds the cipher, writes the IV into the first block of a
   * fresh buffer and the CBC encryption of the padded payload into the rest of it
   * (what cipher.NewCBCEncrypter(block, iv).CryptBlocks does to that tail).
   */
  method AESEncrypt(e: BlockFunction, key: seq<byte>, text: seq<byte>, iv: Block) returns (r: Result<(string, string)>)
    ensures r == AesEncryption(e, key, text, iv)
  {
    var padded := Pkcs7Pad(text);
    if padded.Err? {
      return Err(padded.message);
    }
    var plaintext := padded.value;
    if |plaintext| % BlockSize != 0 {
      return Err("[!] AESEncrypt: plaintext is not a multiple of the block size");
    }
    var block := NewCipher(key);
    if block.Err? {
      return Err(block.message);
    }
    var ciphertext := new byte[BlockSize + |plaintext|];
    // io.ReadFull(rand.Reader, ciphertext[:BlockSize]); the random bytes are `iv`.
    var i := 0;
    while i < BlockSize
      invariant 0 <= i <= BlockSize
      invariant ciphertext[..i] == iv[..i]
    {
      ciphertext[i] := iv[i];
      i := i + 1;
    }
    // CryptBlocks(ciphertext[BlockSize:], plaintext): the padded buffer, block by block.
    var encrypted := Flatten(CbcEncrypt(e, key, iv, ToBlocks(plaintext)));
    assert encrypted == CbcCiphertext(e, key, iv, text);
    var k := 0;
    while k < |encrypted|
      invariant 0 <= k <= |encrypted|
      invariant ciphertext[..BlockSize] == iv
      invariant ciphertext[BlockSize..BlockSize + k] == encrypted[..k]
    {
      ciphertext[BlockSize + k] := encrypted[k];
      k := k + 1;
    }
    assert ciphertext[BlockSize..] == encrypted;
    return Ok((Base64Encode(ciphertext[BlockSize..]), Base64Encode(ciphertext[..BlockSize])));
  }
}
