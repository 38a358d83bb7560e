# keyring: a verified model of the keyed-payload generator

keyring builds "keyed" payloads. A YAML configuration names a target language, a payload file and a
list of keyer invocations. Run reads the payload and draws a random "minus bytes" count. It
checksums the payload without its last minus-bytes bytes. For each keyer it renders a function and
a caller template, and it collects each chain or combo keyer's output into the raw key. The raw key
is hashed with SHA-512. The payload is padded with PKCS#7 and encrypted with AES-CBC, keyed by the
first 32 hex digits of that hash. Finally the language's base code is rendered with the
ciphertext, the IV, the checksum and the fragments. ConfigLintCheck validates a configuration
before any of this happens.

The model keeps the module structure of the program:

- `Wrappers` holds `Option` and `Result`.
- `Strings` holds the Go string functions the core relies on:
  - `strings.Trim` with a cutset, `TrimPrefix`/`TrimSuffix` and ASCII `ToLower`;
  - the UTF-8 conversion `[]byte(s)`;
  - `strconv.Itoa`.
- `Seqs` joins buffer pieces.
- `Encoding` holds lowercase hex and standard padded base64 (RFC 4648 section 4), each with its
  decoder and round trip.
- `Crypt` models lib/crypt.go:
  - hash dispatch and the hex digest;
  - PKCS#7 padding (RFC 5652 section 6.3);
  - CBC chaining (NIST SP 800-38A section 6.2) over an abstract block function;
  - `AESEncrypt`.
- `Helpers` holds `StrInSlice`.
- `CodeUtils` models lib/codeutils.go: file and listing access over a `Workspace`, keyer and
  language parsing, the listing filters, `PrintCodeFile` and `ConfigLintCheck`.
- `Keyring` models keyring.go: `GetPayloadDetails`, the keyer loop of `Run`,
  `functionMapToString`, `additionalLangUpdates` and the rest of `Run`.

Everything the program reads from outside is a parameter of the model:

- **Files, listings and XML decoding.** A `Workspace` holds the contents of the readable files
  by path, the listings of the readable directories by path, the paths that exist but cannot be
  read, and functions that stand for XML decoding. `os.Stat` finds all three kinds of path;
  `ReadFile` succeeds on readable files only. So a payload file that exists but cannot be read
  passes the lint's existence check and still makes Run return zero values, unless a template
  panics first.
- **Templates.** A `TemplateEngine` says whether a template text parses and what executing it
  yields: the text plus an optional execution error. `template.Must` panics when a text does not
  parse; this is the `Panicked` outcome.
- **Randomness.** The math/rand draw is a function `intn` with `intn(m) < m` for every `m > 0`.
  The crypto/rand IV is a block parameter.
- **Cryptographic primitives.** SHA-512 is a function to 64 bytes. The AES block function is a
  function of key and block. The CBC round trip assumes a decryption function that inverts it.
- **Go map order.** The iteration order of a Go map is a ghost key enumeration `order`. Only
  properties that hold for every such enumeration are claimed.

Run has three outcomes. `Panicked` is a Go panic. `Aborted` is an early return of zero values.
`Built` carries the five returned values and the code that would be written.

The Go source and this model disagree with the prose description of the program in one place.
The comment on GetPayloadDetails says minus bytes lie "between len/2 and len-1". The code actually
draws minus bytes below len/2, replaces a draw of 0 by 1 (so minus bytes is 1 when len is 2 or 3),
and panics when len < 2. The model follows the code.

## Model

| member | source | states |
|---|---|---|
| Strings.TrimPrefix | lib/codeutils.go:147 | with the prefix present, prefix + result is the input; otherwise the input is unchanged |
| Strings.TrimSuffix | lib/codeutils.go:98 | with the suffix present, result + suffix is the input; otherwise the input is unchanged |
| Strings.TrimSuffixOfAppended | lib/codeutils.go:85-98 | trimming a suffix that was just appended gives back the original |
| Strings.Trim | keyring.go:127 | the result is a slice of the input; everything cut on either side is in the cutset, and neither end of a non-empty result is |
| Strings.ToLower | keyring.go:152 | length is preserved; each ASCII capital becomes its lower-case letter (code + 32) and every other character is kept |
| Strings.ToLowerConcat | keyring.go:152 | lowering a concatenation is concatenating the lowered parts |
| Strings.EncodeRune | keyring.go:153 | the shortest RFC 3629 form: 1, 2, 3 or 4 bytes by code point range, a lead byte in 0x00..0x7F, 0xC2..0xDF, 0xE0..0xEF or 0xF0..0xF4 for that length, continuation bytes in 0x80..0xBF, and the payload bits give back the code point |
| Strings.Utf8 | keyring.go:153 | the UTF-8 encoding is at least as long as the string, and a one-character string encodes as that rune |
| Strings.Utf8Concat | keyring.go:153 | the encoding of a concatenation is the concatenation of the encodings, so a string encodes as its runes' encodings in order |
| Strings.Utf8OfAscii | keyring.go:159 | an ASCII string encodes to its own character codes, one byte each |
| Strings.Itoa | keyring.go:172 | the result is a non-empty run of decimal digits with no leading zero except "0" itself |
| Strings.ItoaRoundTrip | keyring.go:172 | the decimal value of Itoa(n) is n |
| Encoding.HexEncode | lib/crypt.go:32 | two lowercase hex digits per byte |
| Encoding.HexRoundTrip | lib/crypt.go:32 | decoding the hex text gives back the bytes |
| Encoding.HexIsAscii | lib/crypt.go:32 | hex text is ASCII |
| Encoding.Base64Encode | lib/crypt.go:81-84 | the output has 4 * ceil(len / 3) characters |
| Encoding.Base64EncodeAlphabet | lib/crypt.go:81-84 | every character is from the standard alphabet or is the pad '=' |
| Encoding.Base64RoundTrip | lib/crypt.go:81-84 | the output is well-formed padded base64 and decodes to the input |
| Encoding.QuantumRoundTrip | lib/crypt.go:81-84 | each group of 1 to 3 bytes encodes to a 4-character quantum that decodes back to it |
| Crypt.GenerateSHA512 | lib/crypt.go:28-33 | 128 lowercase hex digits that decode to the 64-byte digest of the input |
| Crypt.GenerateHash | lib/crypt.go:17-24 | Ok exactly for "sha512", with the SHA-512 hex; otherwise the "not supported" error naming the hash type |
| Crypt.HexPrefixIsAes256Key | keyring.go:159 | the first 32 hex digits of a digest convert to 32 bytes, an AES-256 key, each the ASCII code of its digit |
| Crypt.PadCount | lib/crypt.go:73 | the pad count lies in 1..16 and brings the length to a multiple of 16 |
| Crypt.Pkcs7Padding | lib/crypt.go:73-76 | the output is longer than the input by the pad count and a multiple of 16; it starts with the input and every added byte equals the pad count |
| Crypt.Pkcs7RoundTrip | lib/crypt.go:73-76 | removing the padding gives back the input |
| Crypt.Pkcs7UnpadInverts | lib/crypt.go:73-76 | any text that unpads to b is exactly the padding of b |
| Crypt.Pkcs7Pad | lib/crypt.go:66-78 | empty input gives the "invalid PKCS7 data" error and anything else gives the padding |
| Crypt.CbcEncrypt | lib/crypt.go:59-60 | one ciphertext block per plaintext block |
| Crypt.CbcChaining | lib/crypt.go:59-60 | ciphertext block j is E(key, previous ciphertext block, or the IV for j = 0, XOR plaintext block j) |
| Crypt.CbcDecryptChaining | lib/crypt.go:59-60 | decrypted block j is D(key, ciphertext block j) XOR the previous ciphertext block, or the IV |
| Crypt.CbcRoundTrip | lib/crypt.go:59-60 | with D inverting E, CBC decryption undoes CBC encryption |
| Crypt.NewCipher | lib/crypt.go:48-51 | Ok exactly for 16, 24 or 32-byte keys; otherwise the invalid key size error |
| Crypt.CbcCiphertext | lib/crypt.go:53-60 | the ciphertext is exactly as long as the padded plaintext |
| Crypt.AesEncryption | lib/crypt.go:38-63 | an empty payload gives the pad error before any key check, a bad key size gives the cipher error, and success happens exactly otherwise |
| Crypt.AesEncryptionLengths | lib/crypt.go:53-62 | the ciphertext text is the base64 of the padded length and the IV text has 24 characters |
| Crypt.AesEncryptionRoundTrip | lib/crypt.go:38-63 | both texts are valid base64; the IV text decodes to the IV; the ciphertext decodes to whole blocks whose CBC decryption, unpadded, is the payload |
| Crypt.AESEncrypt | lib/crypt.go:38-63 | the buffer-based method computes exactly AesEncryption; its block-size check cannot fail |
| Helpers.StrInSlice | lib/helpers.go:35-42 | true exactly when some element equals s; the scan stops at the first match and no earlier element matches |
| Helpers.InSliceAfterAppend | lib/helpers.go:35-42 | appending elements never turns a match into a miss |
| CodeUtils.ReadFile | lib/helpers.go:10-16 | Ok with the contents exactly for readable files; otherwise the ReadFile error |
| CodeUtils.ParseLanguage | lib/codeutils.go:71-81 | reads ./data/<lang>/lang.xml and decodes it; a read failure is returned |
| CodeUtils.Exists | lib/codeutils.go:183 | os.Stat finds every readable file, every listed directory and every unreadable entry; a path it finds that cannot be read is a directory or an unreadable entry |
| CodeUtils.ParseKeyerFile | lib/codeutils.go:90-101 | Ok exactly when ./data/<lang>/keyers/<file> is readable; the name is the file name without ".xml" and the rest comes from the document |
| CodeUtils.ParseKeyer | lib/codeutils.go:84-87 | Ok exactly when ./data/<lang>/keyers/<name>.xml is readable, with the read error otherwise; the keyer's other fields come from that file's document |
| CodeUtils.ParseKeyerNameRoundTrip | lib/codeutils.go:84-100 | the keyer ParseKeyer(lang, n) yields is named n: appending ".xml" and trimming it again gives the name back |
| CodeUtils.PrintCodeFile | lib/codeutils.go:146-148 | the input is the result with at most one "data/" before it and at most one ".xml" after it |
| CodeUtils.PrintCodeFileOfModulePath | lib/codeutils.go:146-148 | "data/" + p + ".xml" is shown as p |
| CodeUtils.DirectoryNamesMembers | lib/codeutils.go:112-116 | a name is kept exactly when some directory entry has it |
| CodeUtils.XmlExtensionMatches | lib/codeutils.go:136 | every ".xml" file name matches the pattern |
| CodeUtils.XmlPatternAcceptsAnySeparator | lib/codeutils.go:136 | the unescaped dot lets any character other than a newline stand before "xml" |
| CodeUtils.XmlPatternMeaning | lib/codeutils.go:136 | a name matches `.xml$` exactly when it is some text, one character other than a newline, then "xml" at the end |
| CodeUtils.XmlFileNamesMembers | lib/codeutils.go:133-141 | a name is kept exactly when some non-directory entry has it and matches the pattern |
| CodeUtils.GetLanguages | lib/codeutils.go:104-119 | the directory names of ./data in listing order, or nothing when ./data cannot be listed |
| CodeUtils.GetCodeFiles | lib/codeutils.go:122-143 | the matching file names of ./data/<lang>/<section>/ in listing order, or nothing |
| CodeUtils.KeyerLintErrorsShape | lib/codeutils.go:188-208 | an unknown keyer gives exactly the "does not exist" error; a known one gives the type error iff its type is not chain or combo, then the count error iff the input count differs; no error iff the keyer is valid |
| CodeUtils.LintKeyer | lib/codeutils.go:188-208 | one pass of the lint loop appends that keyer's errors |
| CodeUtils.ConfigLintCheck | lib/codeutils.go:170-214 | the errors are those of the lint specification, and the result is true exactly when there are none |
| CodeUtils.LintUnsupportedLanguage | lib/codeutils.go:172-174 | an unsupported language gives exactly ["Language not supported"] |
| CodeUtils.LintNoKeyers | lib/codeutils.go:177-179 | no keyers gives exactly ["No Keyers supplied"], with no payload check |
| CodeUtils.LintAggregationOrder | lib/codeutils.go:183-208 | the missing-payload error comes first, and the errors of the first i keyers come before those of later keyers |
| CodeUtils.LintPassesIff | lib/codeutils.go:170-213 | no error iff the language is supported, there are keyers, the payload exists and every keyer is valid |
| CodeUtils.LintErrorCount | lib/codeutils.go:183-208 | at most one payload error and two errors per keyer |
| CodeUtils.UpdateTemplate | lib/codeutils.go:242-248 | template.Must panics (None) exactly when the text does not parse; otherwise the execution's printed text and its error are returned as they are |
| Keyring.MinusBytes | keyring.go:243-245 | a positive draw is kept and a draw of 0 becomes 1, so the result is at least one |
| Keyring.GetPayloadDetails | keyring.go:232-256 | computes the payload details: nothing on a read or hash error, a panic for payloads of fewer than two bytes |
| Keyring.UnreadablePayload | keyring.go:233-237 | an unreadable payload gives nil, "", 0 |
| Keyring.ShortPayloadPanics | keyring.go:240-242 | a readable payload panics exactly when it has fewer than two bytes |
| Keyring.MinusBytesRule | keyring.go:240-255 | with draw d < n/2: minus bytes is d or, for d = 0, 1; 0 < n - minusBytes < n; the checksum covers only the first n - minusBytes bytes; the whole payload is returned |
| Keyring.FunctionExists | keyring.go:113-119 | the scan over the map's keys, in any order, finds the name exactly when it is a key |
| Keyring.Resolve | keyring.go:108-111 | a keyer name resolves to the keyer read from ./data/<lang>/keyers/<name>.xml, carrying that name, and to the zero Keyer when the file cannot be read |
| Keyring.FunctionMapKeys | keyring.go:113-128 | the function map has a key exactly for each keyer name invoked |
| Keyring.FunctionMapFirstInvocation | keyring.go:113-128 | a name maps to the trimmed function render of its first invocation |
| Keyring.FunctionMapStable | keyring.go:113-128 | later invocations never change an entry |
| Keyring.UnknownKeyer | keyring.go:108-147 | an unknown keyer is the zero Keyer: empty templates, no key material |
| Keyring.UnknownKeyerRendersNothing | keyring.go:108-136 | with text/template's empty-text behaviour, an unknown keyer renders an empty function and an empty caller and its invocation cannot panic, whatever the function map holds |
| Keyring.UnknownKeyerStepParses | keyring.go:107-148 | a loop step whose keyer is unknown never makes Run panic |
| Keyring.CallerPieceNewline | keyring.go:131-147 | an invocation's caller piece ends with "\n" iff the keyer type is chain or combo |
| Keyring.KeyPieceKinds | keyring.go:139-147 | combo keyers feed only the combo material and chain keyers only the chain material; other types feed neither |
| Keyring.RawKeyParts | keyring.go:152 | the raw key is the lowered combo outputs followed directly by the lowered chain outputs |
| Keyring.InvokeKeyer | keyring.go:107-148 | one loop pass panics exactly when a template it renders does not parse; otherwise it records the function, appends the caller piece and appends the output to its material |
| Keyring.RenderKeyers | keyring.go:107-148 | the loop panics exactly when some invocation's templates do not parse; otherwise it yields the function map, the joined caller pieces and the combo and chain material in configuration order |
| Keyring.FunctionMapToString | keyring.go:292-299 | the text is every map value followed by "\n", once per key, in some enumeration of the keys |
| Keyring.FunctionLinesOccurrence | keyring.go:292-299 | whatever the order, each value is written exactly once, at its key's single position |
| Keyring.KeyOrderLength | keyring.go:292-299 | an enumeration of the keys has one entry per key |
| Keyring.SomeKeyOrder | keyring.go:292-299 | every map has an enumeration of its keys |
| Keyring.AdditionalLangUpdates | keyring.go:204-209 | for csharp, the assembly fields are copied; every other field, and every other language, is left unchanged |
| Keyring.BaseLanguage | keyring.go:165 | Run's language record is the decoded ./data/<lang>/lang.xml, or the zero Language when that file cannot be read |
| Keyring.SleepSetting | keyring.go:167-170 | retries "0" clears the sleep interval; it is otherwise unchanged |
| Keyring.OutputFile | keyring.go:192-194 | an empty output file becomes "output." + extension; it is otherwise unchanged |
| Keyring.PlaceholderFields | keyring.go:172-184 | the placeholders carry the fragments, both base64 texts, the checksum, the decimal minus bytes, the sleep rule and the csharp-only extras |
| Keyring.AesKey | keyring.go:153-159 | the AES key is 32 bytes, the ASCII codes of the first 32 hex digits of the raw key's SHA-512 |
| Keyring.FinishBuild | keyring.go:150-198 | the steps after the loop compute the finishing specification |
| Keyring.Run | keyring.go:93-199 | Run computes the build specification for some enumeration of the function map's keys: panics, zero-value returns and finished builds exactly as specified |
| Keyring.FinishEncryptsPayload | keyring.go:159-163 | a finished build's ciphertext decrypts and unpads to the whole payload, and its IV text decodes to the IV |
| Keyring.FinishResult | keyring.go:150-198 | a finished build returns the given key, its SHA-512, the checksum, the minus bytes and the output file, and the base code parsed and executed without error |
| Keyring.BuildFinishes | keyring.go:96-148 | a finished build read its payload details and every template parsed |
| Keyring.PayloadRead | keyring.go:232-255 | non-empty payload details come from a file of at least two bytes and are checksummed by the minus-bytes rule |
| Keyring.BuiltResult | keyring.go:93-199 | a finished Run returns the raw key, its 128-digit SHA-512, the output file rule, and the checksum and minus bytes of the payload file |
| Keyring.BuiltCode | keyring.go:159-190 | the code written is the base code rendered with the placeholders of the whole payload file's encryption |
| Keyring.MissingPayloadAborts | keyring.go:96-163 | an unreadable payload makes Run return zero values, unless a template panics first |

## Left out

- main, flag parsing, usage, banner, PrintKeyerHelp and the listAll* listings: they are console I/O only.
- retrieveRemoteKeys and lib/httpkey.go: they make network calls.
- ParseConfigFile: YAML loading is outside the model. A configuration is a `Config` value.
- XML decoding is a pair of functions in the `Workspace`. A `<Name>` element in a keyer file,
  which Go's decoder would let overwrite the name derived from the file name, is not modelled.
- ReadFile, os.Stat and ioutil.ReadDir are lookups in the `Workspace`. Go's ioutil.ReadDir sorts
  its entries by file name; the model does not assume sorted listings, so its claims about
  GetLanguages and GetCodeFiles hold for any listing order. An os.Stat error other
  than "does not exist" is modelled as an unreadable path that exists; the reason for the error
  is not modelled.
- WriteFile is left out: the code it would write is the `finalCode` of a `Built` outcome. Its
  panic on a failed write is left out too.
- The `fmt.Printf` diagnostics of Run, GetPayloadDetails and the listing functions are left out:
  they are console output.
- text/template is an injected `TemplateEngine`. Template syntax and execution are not modelled.
  Its one fact the model relies on, that the empty text parses and renders nothing without error,
  is the predicate `EmptyTemplateRendersEmpty`, which the lemmas that need it require.
- SHA-512 (FIPS 180-4) and the AES block function (FIPS 197) are injected functions. CryptBlocks
  is the chaining function `CbcEncrypt`, applied to the blocks of the padded buffer. The crypto/rand IV is a parameter; its read
  failure, which panics, is not modelled.
- The time-seeded math/rand draw is the injected `intn`.
- Strings.ToLower: only ASCII letters are lowered. Go's Unicode case mapping is not modelled.
- Crypt.Pkcs7Pad: the guard on a non-positive block size tests a constant and cannot fail, so it
  has no branch in the model.
- Keyring.AdditionalLangUpdates: the update through a pointer is modelled as a function that
  returns the updated template.
- Keyring.Run and CodeUtils.ConfigLintCheck: each loop body is a separate method
  (`Keyring.InvokeKeyer`, `CodeUtils.LintKeyer`). In the lint loop, Go's `continue` is the body's
  early return.
- Keyring.FunctionMapToString: the written order is not claimed, because Go leaves map iteration
  order unspecified. Only occurrence properties hold for all orders.
- Keyring.BaseLanguage: a ParseLanguage error is ignored, as in Run, and the zero Language is used.
