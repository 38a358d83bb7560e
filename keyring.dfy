/**
 * keyring.go: the build of a keyed payload.  Run reads the payload and draws
 * the "minus bytes", renders every configured keyer's function and caller
 * templates, assembles the raw key from the keyers' outputs, derives the AES key
 * from the key's SHA-512, encrypts the payload and renders the language's base
 * code with all of it.
 *
 * Everything the build reads from outside is an `Environment`: the workspace
 * (files, listings, XML decoding), the template engine, SHA-512, the AES block
 * function, the time-seeded `rand.Intn` and the IV crypto/rand would produce.
 */
module Keyring {
  import opened Wrappers
  import opened Strings
  import opened Seqs
  import opened Encoding
  import opened Crypt
  import opened CodeUtils

  datatype Environment = Environment(
    ws: Workspace,
    engine: TemplateEngine,
    sha: Hasher,
    cipher: BlockFunction,
    intn: nat -> nat,
    iv: Block)

  /** math/rand's Intn: for a positive bound, a draw below the bound. */
  ghost predicate IsIntn(intn: nat -> nat)
  {
    forall m: nat :: m > 0 ==> intn(m) < m
  }

  // ---------------------------------------------------------------------------
  // GetPayloadDetails: the payload and its "minus bytes" checksum
  // ---------------------------------------------------------------------------

  datatype PayloadDetails = PayloadDetails(contents: seq<byte>, hash: string, minusBytes: nat)

  /** GetPayloadDetails either panics (rand.Intn(0)) or returns its three values. */
  datatype PayloadOutcome = DrawPanicked | Payload(details: PayloadDetails)

  /** What GetPayloadDetails returns after a read or hash error: nil, "", 0. */
  const NoPayload := PayloadDetails([], "", 0)

  /** A draw of zero is bumped to one. */
  function MinusBytes(draw: nat): (minusBytes: nat)
    ensures minusBytes >= 1
    ensures draw > 0 ==> minusBytes == draw
    ensures draw == 0 ==> minusBytes == 1
  {
    if draw == 0 then 1 else draw
  }

  function PayloadDetailsOf(env: Environment, payloadFile: string, hashType: string): PayloadOutcome
    requires IsIntn(env.intn)
  {
    match ReadFile(env.ws, payloadFile)
    case Err(_) => Payload(NoPayload)
    case Ok(contents) =>
      var num := |contents| / 2;
      if num == 0 then DrawPanicked
      else
        var minusBytes := MinusBytes(env.intn(num));
        match GenerateHash(env.sha, contents[..|contents| - minusBytes], hashType)
        case Err(_) => Payload(NoPayload)
        case Ok(payloadHash) => Payload(PayloadDetails(contents, payloadHash, minusBytes))
  }

  method GetPayloadDetails(env: Environment, payloadFile: string, hashType: string) returns (r: PayloadOutcome)
    requires IsIntn(env.intn)
    ensures r == PayloadDetailsOf(env, payloadFile, hashType)
  {
    var fileContents := ReadFile(env.ws, payloadFile);
    if fileContents.Err? {
      return Payload(NoPayload);
    }
    var contents := fileContents.value;
    var num := |contents| / 2;
    if num == 0 {
      // rand.Intn panics on a bound that is not positive.
      return DrawPanicked;
    }
    var minusBytes := env.intn(num);
    if minusBytes == 0 {
      minusBytes := 1;
    }
    var index := |contents| - minusBytes;
    var payloadHash := GenerateHash(env.sha, contents[..index], hashType);
    if payloadHash.Err? {
      return Payload(NoPayload);
    }
    return Payload(PayloadDetails(contents, payloadHash.value, minusBytes));
  }

  /** An unreadable payload is not an error here: the build goes on with nothing. */
  lemma UnreadablePayload(env: Environment, payloadFile: string, hashType: string)
    requires IsIntn(env.intn)
    requires payloadFile !in env.ws.files
    ensures PayloadDetailsOf(env, payloadFile, hashType) == Payload(NoPayload)
  {
  }

  /** rand.Intn(len/2) needs a positive bound: a payload shorter than two bytes panics. */
  lemma ShortPayloadPanics(env: Environment, payloadFile: string, hashType: string)
    requires IsIntn(env.intn)
    requires payloadFile in env.ws.files
    ensures PayloadDetailsOf(env, payloadFile, hashType) == DrawPanicked <==> |env.ws.files[payloadFile]| < 2
  {
  }

  /**
   * The minus-bytes rule: with n = len(payload) >= 2 and the draw d < n/2,
   * minusBytes is d, or 1 when d is 0; the checksummed prefix ends at
   * index = n - minusBytes, strictly inside the payload; the checksum is the
   * SHA-512 of that prefix only, while the whole payload is returned.
   */
  lemma MinusBytesRule(env: Environment, payloadFile: string)
    requires IsIntn(env.intn)
    requires payloadFile in env.ws.files && |env.ws.files[payloadFile]| >= 2
    ensures var contents := env.ws.files[payloadFile];
      var n := |contents|;
      var draw := env.intn(n / 2);
      var r := PayloadDetailsOf(env, payloadFile, "sha512");
      && draw < n / 2
      && r.Payload?
      && r.details.minusBytes == (if draw == 0 then 1 else draw)
      && 1 <= r.details.minusBytes
      && (r.details.minusBytes == 1 || r.details.minusBytes < n / 2)
      && 0 < n - r.details.minusBytes < n
      && r.details.hash == GenerateSHA512(env.sha, contents[..n - r.details.minusBytes])
      && r.details.contents == contents
  {
    var contents := env.ws.files[payloadFile];
    var n := |contents|;
    assert env.intn(n / 2) < n / 2;
  }

  // ---------------------------------------------------------------------------
  // Run's loop: functions, callers and key material
  // ---------------------------------------------------------------------------

  /**
   * The keyer a name resolves to: the keyer read from ./data/<lang>/keyers/<name>.xml,
   * named after the name it was asked for, or the zero Keyer when there is no such file.
   */
  function Resolve(ws: Workspace, lang: string, name: string): (k: Keyer)
    ensures "./data/" + lang + "/keyers/" + name + ".xml" !in ws.files ==> k == ZeroKeyer
    ensures "./data/" + lang + "/keyers/" + name + ".xml" in ws.files ==>
      k == WithName(ws.keyerXml(ws.files["./data/" + lang + "/keyers/" + name + ".xml"]), name)
  {
    ParseKeyerNameRoundTrip(ws, lang, name);
    match ParseKeyer(ws, lang, name)
    case Ok(k) => k
    case Err(_) => ZeroKeyer
  }

  /** A template rendered against an invocation, with surrounding newlines and spaces trimmed. */
  function Render(engine: TemplateEngine, code: string, k: ConfigKeyer): string
  {
    Trim(engine.execute(code, KeyerInputs(k)).text, Whitespace)
  }

  /** The function fragment of an invocation. */
  function FunctionFragment(env: Environment, lang: string, k: ConfigKeyer): string
  {
    Render(env.engine, Resolve(env.ws, lang, k.name).functionTemplate, k)
  }

  /** What an invocation appends to the callers: its trimmed caller, then "\n" for a chain or combo keyer. */
  function CallerPiece(env: Environment, lang: string, k: ConfigKeyer): string
  {
    var obj := Resolve(env.ws, lang, k.name);
    Render(env.engine, obj.callerTemplate, k) + (if IsKeyType(obj.keyerType) then "\n" else "")
  }

  function CallerPieces(env: Environment, lang: string, ks: seq<ConfigKeyer>): (pieces: seq<string>)
    ensures |pieces| == |ks|
  {
    seq(|ks|, i requires 0 <= i < |ks| => CallerPiece(env, lang, ks[i]))
  }

  /** What an invocation adds to the key material of `kind` ("combo" or "chain"). */
  function KeyPiece(ws: Workspace, lang: string, k: ConfigKeyer, kind: string): string
  {
    if Resolve(ws, lang, k.name).keyerType == kind then k.output else ""
  }

  function KeyPieces(ws: Workspace, lang: string, ks: seq<ConfigKeyer>, kind: string): (pieces: seq<string>)
    ensures |pieces| == |ks|
  {
    seq(|ks|, i requires 0 <= i < |ks| => KeyPiece(ws, lang, ks[i], kind))
  }

  /** One invocation's effect on the function map: a name seen before keeps its fragment. */
  function Record(env: Environment, lang: string, m: map<string, string>, k: ConfigKeyer): map<string, string>
  {
    if k.name in m then m else m[k.name := FunctionFragment(env, lang, k)]
  }

  /**
   * The function map after the first `n` invocations: a name gets the fragment
   * of its first invocation and keeps it.
   */
  function FunctionMap(env: Environment, lang: string, ks: seq<ConfigKeyer>, n: nat): map<string, string>
    requires n <= |ks|
  {
    if n == 0 then map[]
    else
      var m := FunctionMap(env, lang, ks, n - 1);
      var k := ks[n - 1];
      Record(env, lang, m, k)
  }

  /** The names in the function map are exactly the names invoked. */
  lemma {:induction false} FunctionMapKeys(env: Environment, lang: string, ks: seq<ConfigKeyer>, n: nat)
    requires n <= |ks|
    ensures forall name :: name in FunctionMap(env, lang, ks, n) <==> exists i :: 0 <= i < n && ks[i].name == name
  {
    if n > 0 {
      FunctionMapKeys(env, lang, ks, n - 1);
    }
  }

  /** Each name is mapped to the fragment of its first invocation. */
  lemma {:induction false} FunctionMapFirstInvocation(env: Environment, lang: string, ks: seq<ConfigKeyer>, n: nat, j: nat)
    requires j < n <= |ks|
    requires forall i :: 0 <= i < j ==> ks[i].name != ks[j].name
    ensures ks[j].name in FunctionMap(env, lang, ks, n)
    ensures FunctionMap(env, lang, ks, n)[ks[j].name] == FunctionFragment(env, lang, ks[j])
  {
    if j < n - 1 {
      FunctionMapFirstInvocation(env, lang, ks, n - 1, j);
    } else {
      FunctionMapKeys(env, lang, ks, j);
    }
  }

  /** Later invocations never overwrite an entry. */
  lemma {:induction false} FunctionMapStable(env: Environment, lang: string, ks: seq<ConfigKeyer>, m: nat, n: nat, name: string)
    requires m <= n <= |ks|
    requires name in FunctionMap(env, lang, ks, m)
    ensures name in FunctionMap(env, lang, ks, n)
    ensures FunctionMap(env, lang, ks, n)[name] == FunctionMap(env, lang, ks, m)[name]
  {
    if m < n {
      FunctionMapStable(env, lang, ks, m, n - 1, name);
    }
  }

  /**
   * An invocation against the function map `m` does not panic: its function
   * template parses (when it is rendered at all) and so does its caller template.
   */
  predicate InvocationParses(env: Environment, lang: string, m: map<string, string>, k: ConfigKeyer)
  {
    var obj := Resolve(env.ws, lang, k.name);
    && (k.name in m || env.engine.parses(obj.functionTemplate))
    && env.engine.parses(obj.callerTemplate)
  }

  /** Invocation i does not panic. */
  predicate StepParses(env: Environment, lang: string, ks: seq<ConfigKeyer>, i: nat)
    requires i < |ks|
  {
    InvocationParses(env, lang, FunctionMap(env, lang, ks, i), ks[i])
  }

  predicate TemplatesParse(env: Environment, lang: string, ks: seq<ConfigKeyer>, n: nat)
    requires n <= |ks|
  {
    forall i :: 0 <= i < n ==> StepParses(env, lang, ks, i)
  }

  lemma TemplatesParseExtends(env: Environment, lang: string, ks: seq<ConfigKeyer>, i: nat)
    requires i < |ks|
    requires TemplatesParse(env, lang, ks, i)
    requires StepParses(env, lang, ks, i)
    ensures TemplatesParse(env, lang, ks, i + 1)
  {
  }

  /** One invocation that panics makes the whole loop panic. */
  lemma TemplatesParseFails(env: Environment, lang: string, ks: seq<ConfigKeyer>, i: nat)
    requires i < |ks|
    requires !StepParses(env, lang, ks, i)
    ensures !TemplatesParse(env, lang, ks, |ks|)
  {
  }

  /**
   * The for-range scan of functionMap's keys (keyring.go's check for an
   * existing function), in the map's unspecified order.
   */
  method FunctionExists(functionMap: map<string, string>, name: string) returns (funcExists: bool)
    ensures funcExists <==> name in functionMap
  {
    funcExists := false;
    var pending := functionMap.Keys;
    while pending != {}
      invariant pending <= functionMap.Keys
      invariant funcExists <==> name in functionMap.Keys - pending
      decreases |pending|
    {
      var f :| f in pending;
      if f == name {
        funcExists := true;
      }
      pending := pending - {f};
    }
  }

  /** An unknown keyer is the zero Keyer: empty templates, no key material, no trailing "\n". */
  lemma UnknownKeyer(env: Environment, lang: string, k: ConfigKeyer)
    requires ParseKeyer(env.ws, lang, k.name).Err?
    ensures Resolve(env.ws, lang, k.name) == ZeroKeyer
    ensures KeyPiece(env.ws, lang, k, "combo") == "" && KeyPiece(env.ws, lang, k, "chain") == ""
    ensures CallerPiece(env, lang, k) == Render(env.engine, "", k)
    ensures FunctionFragment(env, lang, k) == Render(env.engine, "", k)
  {
  }

  /**
   * With text/template's handling of the empty text, an unknown keyer contributes
   * nothing: an empty function fragment, an empty caller piece, and an invocation
   * that cannot panic whatever the function map holds.
   */
  lemma UnknownKeyerRendersNothing(env: Environment, lang: string, m: map<string, string>, k: ConfigKeyer)
    requires EmptyTemplateRendersEmpty(env.engine)
    requires ParseKeyer(env.ws, lang, k.name).Err?
    ensures FunctionFragment(env, lang, k) == ""
    ensures CallerPiece(env, lang, k) == ""
    ensures InvocationParses(env, lang, m, k)
  {
    UnknownKeyer(env, lang, k);
    assert env.engine.execute("", KeyerInputs(k)) == Rendering("", None);
  }

  /** So a step of the loop whose keyer is unknown never makes Run panic. */
  lemma UnknownKeyerStepParses(env: Environment, lang: string, ks: seq<ConfigKeyer>, i: nat)
    requires EmptyTemplateRendersEmpty(env.engine)
    requires i < |ks|
    requires ParseKeyer(env.ws, lang, ks[i].name).Err?
    ensures StepParses(env, lang, ks, i)
  {
    UnknownKeyerRendersNothing(env, lang, FunctionMap(env, lang, ks, i), ks[i]);
  }

  /**
   * A caller piece ends with "\n" exactly when the keyer is a chain or combo
   * keyer: the trimmed render itself never ends with one.
   */
  lemma CallerPieceNewline(env: Environment, lang: string, k: ConfigKeyer)
    ensures var piece := CallerPiece(env, lang, k);
      (piece != [] && piece[|piece| - 1] == '\n') <==> IsKeyType(Resolve(env.ws, lang, k.name).keyerType)
  {
    var obj := Resolve(env.ws, lang, k.name);
    var r := Render(env.engine, obj.callerTemplate, k);
    if !IsKeyType(obj.keyerType) {
      assert CallerPiece(env, lang, k) == r;
    }
  }

  /** Only combo keyers feed the combo material, only chain keyers the chain material. */
  lemma KeyPieceKinds(ws: Workspace, lang: string, k: ConfigKeyer)
    ensures var t := Resolve(ws, lang, k.name).keyerType;
      && (KeyPiece(ws, lang, k, "combo") == if t == "combo" then k.output else "")
      && (KeyPiece(ws, lang, k, "chain") == if t == "chain" then k.output else "")
      && (!IsKeyType(t) ==> KeyPiece(ws, lang, k, "combo") == "" && KeyPiece(ws, lang, k, "chain") == "")
  {
  }

  /** The raw key: the lowered combo outputs followed by the lowered chain outputs, nothing between. */
  function RawKey(ws: Workspace, lang: string, ks: seq<ConfigKeyer>): string
  {
    ToLower(Join(KeyPieces(ws, lang, ks, "combo"), |ks|) + Join(KeyPieces(ws, lang, ks, "chain"), |ks|))
  }

  lemma RawKeyParts(ws: Workspace, lang: string, ks: seq<ConfigKeyer>)
    ensures RawKey(ws, lang, ks)
      == ToLower(Join(KeyPieces(ws, lang, ks, "combo"), |ks|)) + ToLower(Join(KeyPieces(ws, lang, ks, "chain"), |ks|))
  {
    ToLowerConcat(Join(KeyPieces(ws, lang, ks, "combo"), |ks|), Join(KeyPieces(ws, lang, ks, "chain"), |ks|));
  }

  // ---------------------------------------------------------------------------
  // functionMapToString
  // ---------------------------------------------------------------------------

  /** `order` lists every key of `m` exactly once. */
  predicate IsKeyOrder(order: seq<string>, m: map<string, string>)
  {
    && (forall i :: 0 <= i < |order| ==> order[i] in m)
    && (forall k :: k in m ==> k in order)
    && (forall i, j :: 0 <= i < j < |order| ==> order[i] != order[j])
  }

  /** The functions text for a key order: each value followed by "\n". */
  function FunctionLines(m: map<string, string>, order: seq<string>): (lines: seq<string>)
    requires forall i :: 0 <= i < |order| ==> order[i] in m
    ensures |lines| == |order|
  {
    seq(|order|, i requires 0 <= i < |order| => m[order[i]] + "\n")
  }

  function FunctionsText(m: map<string, string>, order: seq<string>): string
    requires forall i :: 0 <= i < |order| ==> order[i] in m
  {
    Join(FunctionLines(m, order), |order|)
  }

  /**
   * functionMapToString: writes every value followed by "\n", in the map's
   * iteration order, which the model leaves open: some enumeration of the keys.
   */
  method FunctionMapToString(fMap: map<string, string>) returns (functions: string)
    ensures exists order :: IsKeyOrder(order, fMap) && functions == FunctionsText(fMap, order)
  {
    functions := "";
    ghost var order := [];
    var pending := fMap.Keys;
    while pending != {}
      invariant pending <= fMap.Keys
      invariant forall i :: 0 <= i < |order| ==> order[i] in fMap && order[i] !in pending
      invariant forall k :: k in fMap ==> k in pending || k in order
      invariant forall i, j :: 0 <= i < j < |order| ==> order[i] != order[j]
      invariant functions == FunctionsText(fMap, order)
      decreases |pending|
    {
      var key :| key in pending;
      ghost var previous := order;
      functions := functions + fMap[key] + "\n";
      order := order + [key];
      pending := pending - {key};
      JoinAgrees(FunctionLines(fMap, order), FunctionLines(fMap, previous), |previous|);
      assert FunctionsText(fMap, order) == FunctionsText(fMap, previous) + (fMap[key] + "\n");
    }
    assert IsKeyOrder(order, fMap) && functions == FunctionsText(fMap, order);
  }

  /**
   * Whatever the iteration order, every value of the map is written exactly
   * once, followed by "\n": at the one position where its key is enumerated.
   */
  lemma FunctionLinesOccurrence(m: map<string, string>, order: seq<string>, k: string)
    requires IsKeyOrder(order, m)
    requires k in m
    ensures exists i :: 0 <= i < |order| && order[i] == k && FunctionLines(m, order)[i] == m[k] + "\n"
    ensures forall i, j :: 0 <= i < |order| && 0 <= j < |order| && order[i] == k && order[j] == k ==> i == j
  {
    var i :| 0 <= i < |order| && order[i] == k;
    assert FunctionLines(m, order)[i] == m[k] + "\n";
  }

  /** A key order has one entry per key. */
  lemma {:induction false} KeyOrderLength(order: seq<string>, m: map<string, string>)
    requires IsKeyOrder(order, m)
    ensures |order| == |m|
  {
    DistinctCover(order, m.Keys);
  }

  lemma {:induction false} DistinctCover(order: seq<string>, keys: set<string>)
    requires forall i :: 0 <= i < |order| ==> order[i] in keys
    requires forall k :: k in keys ==> k in order
    requires forall i, j :: 0 <= i < j < |order| ==> order[i] != order[j]
    ensures |order| == |keys|
  {
    if order != [] {
      var last := order[|order| - 1];
      var front := order[..|order| - 1];
      forall k | k in keys - {last} ensures k in front {
        var i :| 0 <= i < |order| && order[i] == k;
        assert i < |order| - 1;
        assert front[i] == k;
      }
      DistinctCover(front, keys - {last});
    }
  }

  /** Some key order exists for every map (the one Go's iteration happens to take). */
  lemma {:induction false} SomeKeyOrder(m: map<string, string>) returns (order: seq<string>)
    ensures IsKeyOrder(order, m)
    decreases |m|
  {
    if m == map[] {
      order := [];
    } else {
      var k :| k in m;
      var rest := m - {k};
      assert |rest| < |m| by {
        assert rest.Keys == m.Keys - {k};
      }
      var front := SomeKeyOrder(rest);
      order := front + [k];
    }
  }

  // ---------------------------------------------------------------------------
  // additionalLangUpdates and the final build
  // ---------------------------------------------------------------------------

  /**
   * additionalLangUpdates: only the C# target gets the assembly type and method
   * of the configuration; every other field, and every other target, is left as is.
   */
  function AdditionalLangUpdates(language: string, fct: FinalCodeTemplate, config: Config): (r: FinalCodeTemplate)
    ensures r.(assemblyType := fct.assemblyType, assemblyMethod := fct.assemblyMethod) == fct
    ensures language == "csharp" ==> r.assemblyType == config.assemblyType && r.assemblyMethod == config.assemblyMethod
    ensures language != "csharp" ==> r == fct
  {
    if language == "csharp" then fct.(assemblyType := config.assemblyType, assemblyMethod := config.assemblyMethod)
    else fct
  }

  /** The language record Run uses: the decoded lang.xml, or the zero Language when it cannot be read. */
  function BaseLanguage(ws: Workspace, lang: string): (l: Language)
    ensures "./data/" + lang + "/lang.xml" in ws.files ==> l == ws.languageXml(ws.files["./data/" + lang + "/lang.xml"])
    ensures "./data/" + lang + "/lang.xml" !in ws.files ==> l == ZeroLanguage
  {
    assert LanguagePath(lang) == "./data/" + lang + "/lang.xml";
    match ParseLanguage(ws, lang)
    case Ok(l) => l
    case Err(_) => ZeroLanguage
  }

  /** `retries: "0"` clears the sleep interval. */
  function SleepSetting(config: Config): (sleep: string)
    ensures config.retries == "0" ==> sleep == ""
    ensures config.retries != "0" ==> sleep == config.sleep
  {
    if config.retries == "0" then "" else config.sleep
  }

  /** An empty output file name becomes "output." plus the language's extension. */
  function OutputFile(config: Config, base: Language): (path: string)
    ensures config.outputFile == "" ==> path == "output." + base.extension
    ensures config.outputFile != "" ==> path == config.outputFile
  {
    if config.outputFile == "" then "output." + base.extension else config.outputFile
  }

  /** The placeholders of the final template. */
  function Placeholders(config: Config, env: Environment, details: PayloadDetails, functions: string,
                        callers: string, encrypted: (string, string)): FinalCodeTemplate
  {
    var base := BaseLanguage(env.ws, config.language);
    AdditionalLangUpdates(base.name,
      FinalCodeTemplate(
        functions, callers, encrypted.0, details.hash, encrypted.1,
        Itoa(details.minusBytes), config.retries, SleepSetting(config), "", ""),
      config)
  }

  /** The AES key: the first 32 hex digits of the raw key's SHA-512, as bytes. */
  function AesKey(sha: Hasher, finalKey: string): (key: seq<byte>)
    ensures |key| == 32
    ensures forall i :: 0 <= i < 32 ==> key[i] == GenerateSHA512(sha, Utf8(finalKey))[i] as int
  {
    var keyHash := GenerateSHA512(sha, Utf8(finalKey));
    HexPrefixIsAes256Key(sha, Utf8(finalKey));
    Utf8(keyHash[..32])
  }

  /** The outcome of a build: a panic, an early return of zero values, or the five values and the code written. */
  datatype RunOutcome =
    | Panicked
    | Aborted
    | Built(finalKey: string, keyHash: string, payloadHash: string, outputFile: string, minusBytes: nat, finalCode: string)

  /** Everything after the loop, given the payload, the rendered functions and callers and the raw key. */
  function Finish(config: Config, env: Environment, details: PayloadDetails, functions: string,
                  callers: string, finalKey: string): RunOutcome
  {
    match AesEncryption(env.cipher, AesKey(env.sha, finalKey), details.contents, env.iv)
    case Err(_) => Aborted
    case Ok(encrypted) =>
      var base := BaseLanguage(env.ws, config.language);
      match UpdateTemplate(env.engine, base.baseCode, FinalCode(Placeholders(config, env, details, functions, callers, encrypted)))
      case None => Panicked
      case Some(out) =>
        if out.err.Some? then Aborted
        else Built(finalKey, GenerateSHA512(env.sha, Utf8(finalKey)), details.hash,
                   OutputFile(config, base), details.minusBytes, out.text)
  }

  /** The build, for the order `order` in which the function map is iterated. */
  function Build(config: Config, env: Environment, order: seq<string>): RunOutcome
    requires IsIntn(env.intn)
    requires IsKeyOrder(order, FunctionMap(env, config.language, config.keyers, |config.keyers|))
  {
    var ks := config.keyers;
    var lang := config.language;
    match PayloadDetailsOf(env, config.payloadFile, "sha512")
    case DrawPanicked => Panicked
    case Payload(details) =>
      if !TemplatesParse(env, lang, ks, |ks|) then Panicked
      else
        Finish(config, env, details,
               FunctionsText(FunctionMap(env, lang, ks, |ks|), order),
               Join(CallerPieces(env, lang, ks), |ks|),
               RawKey(env.ws, lang, ks))
  }

  /**
   * One pass of Run's loop for invocation `keyer`: render its function unless
   * its name is already in the map, render its caller, and append the caller
   * and the keyer's output.  `panicked` is a template.Must failure.
   */
  method InvokeKeyer(env: Environment, lang: string, keyer: ConfigKeyer, functionMap: map<string, string>,
                     callers: string, keyCombos: string, keyChains: string)
    returns (panicked: bool, functionMap': map<string, string>, callers': string, keyCombos': string, keyChains': string)
    ensures panicked <==> !InvocationParses(env, lang, functionMap, keyer)
    ensures !panicked ==> functionMap' == Record(env, lang, functionMap, keyer)
    ensures !panicked ==> callers' == callers + CallerPiece(env, lang, keyer)
    ensures !panicked ==> keyCombos' == keyCombos + KeyPiece(env.ws, lang, keyer, "combo")
    ensures !panicked ==> keyChains' == keyChains + KeyPiece(env.ws, lang, keyer, "chain")
  {
    functionMap', callers', keyCombos', keyChains' := functionMap, callers, keyCombos, keyChains;
    var parsed := ParseKeyer(env.ws, lang, keyer.name);
    var keyerObj := if parsed.Ok? then parsed.value else ZeroKeyer;

    var funcExists := FunctionExists(functionMap, keyer.name);
    if !funcExists {
      var rendered := UpdateTemplate(env.engine, keyerObj.functionTemplate, KeyerInputs(keyer));
      if rendered.None? {
        return true, functionMap', callers', keyCombos', keyChains';
      }
      functionMap' := functionMap[keyer.name := Trim(rendered.value.text, Whitespace)];
    }

    var caller := UpdateTemplate(env.engine, keyerObj.callerTemplate, KeyerInputs(keyer));
    if caller.None? {
      return true, functionMap', callers', keyCombos', keyChains';
    }
    callers' := callers + Trim(caller.value.text, Whitespace);

    if keyerObj.keyerType == "chain" {
      keyChains' := keyChains + keyer.output;
      callers' := callers' + "\n";
    } else if keyerObj.keyerType == "combo" {
      keyCombos' := keyCombos + keyer.output;
      callers' := callers' + "\n";
    }
    panicked := false;
  }

  /**
   * Run's loop over the configured keyers: for each invocation, the function
   * rendered the first time its name is seen, the trimmed caller (and "\n" for a
   * chain or combo keyer), and its output appended to the chain or combo
   * material.  `panicked` is a template.Must failure partway through.
   */
  method RenderKeyers(env: Environment, lang: string, ks: seq<ConfigKeyer>)
    returns (panicked: bool, functionMap: map<string, string>, callers: string, keyCombos: string, keyChains: string)
    ensures panicked <==> !TemplatesParse(env, lang, ks, |ks|)
    ensures !panicked ==> functionMap == FunctionMap(env, lang, ks, |ks|)
    ensures !panicked ==> callers == Join(CallerPieces(env, lang, ks), |ks|)
    ensures !panicked ==> keyCombos == Join(KeyPieces(env.ws, lang, ks, "combo"), |ks|)
    ensures !panicked ==> keyChains == Join(KeyPieces(env.ws, lang, ks, "chain"), |ks|)
  {
    panicked := false;
    callers := "";
    keyCombos := "";
    keyChains := "";
    functionMap := map[];
    ghost var callerPieces := CallerPieces(env, lang, ks);
    ghost var comboPieces := KeyPieces(env.ws, lang, ks, "combo");
    ghost var chainPieces := KeyPieces(env.ws, lang, ks, "chain");
    for i := 0 to |ks|
      invariant TemplatesParse(env, lang, ks, i)
      invariant functionMap == FunctionMap(env, lang, ks, i)
      invariant callers == Join(callerPieces, i)
      invariant keyCombos == Join(comboPieces, i)
      invariant keyChains == Join(chainPieces, i)
    {
      panicked, functionMap, callers, keyCombos, keyChains :=
        InvokeKeyer(env, lang, ks[i], functionMap, callers, keyCombos, keyChains);
      if panicked {
        TemplatesParseFails(env, lang, ks, i);
        return;
      }
      TemplatesParseExtends(env, lang, ks, i);
    }
    return false, functionMap, callers, keyCombos, keyChains;
  }

  /**
   * The rest of Run: hash the raw key, encrypt the payload under the first 32
   * hex digits of the hash, fill the placeholders and render the base code.
   */
  method FinishBuild(config: Config, env: Environment, details: PayloadDetails, functions: string,
                     callers: string, finalKey: string) returns (r: RunOutcome)
    ensures r == Finish(config, env, details, functions, callers, finalKey)
  {
    var keyHash := GenerateHash(env.sha, Utf8(finalKey), "sha512");
    var encrypted := AESEncrypt(env.cipher, Utf8(keyHash.value[..32]), details.contents, env.iv);
    if encrypted.Err? {
      return Aborted;
    }

    var base := BaseLanguage(env.ws, config.language);
    var sleep := config.sleep;
    if config.retries == "0" {
      sleep := "";
    }
    var minusByteString := Itoa(details.minusBytes);
    var placeholders := FinalCodeTemplate(
      functions, callers, encrypted.value.0, details.hash, encrypted.value.1,
      minusByteString, config.retries, sleep, "", "");
    placeholders := AdditionalLangUpdates(base.name, placeholders, config);

    var finalCode := UpdateTemplate(env.engine, base.baseCode, FinalCode(placeholders));
    if finalCode.None? {
      return Panicked;
    }
    if finalCode.value.err.Some? {
      return Aborted;
    }
    var outputFile := config.outputFile;
    if outputFile == "" {
      outputFile := "output." + base.extension;
    }
    return Built(finalKey, keyHash.value, details.hash, outputFile, details.minusBytes, finalCode.value.text);
  }

  /**
   * Run: read the payload, render the keyers, write out the function map in
   * its iteration order (some enumeration of its keys), assemble the raw key
   * and finish the build.
   */
  method Run(config: Config, env: Environment) returns (r: RunOutcome)
    requires IsIntn(env.intn)
    ensures exists order :: IsKeyOrder(order, FunctionMap(env, config.language, config.keyers, |config.keyers|))
                            && r == Build(config, env, order)
  {
    var ks := config.keyers;
    var lang := config.language;
    var payload := GetPayloadDetails(env, config.payloadFile, "sha512");
    if payload.DrawPanicked? {
      ghost var order := SomeKeyOrder(FunctionMap(env, lang, ks, |ks|));
      assert Build(config, env, order) == Panicked;
      return Panicked;
    }
    var panicked, functionMap, callers, keyCombos, keyChains := RenderKeyers(env, lang, ks);
    if panicked {
      ghost var order := SomeKeyOrder(FunctionMap(env, lang, ks, |ks|));
      assert Build(config, env, order) == Panicked;
      return Panicked;
    }
    var functions := FunctionMapToString(functionMap);
    ghost var order :| IsKeyOrder(order, functionMap) && functions == FunctionsText(functionMap, order);
    var finalKey := ToLower(keyCombos + keyChains);
    r := FinishBuild(config, env, payload.details, functions, callers, finalKey);
    assert r == Build(config, env, order);
  }

  // ---------------------------------------------------------------------------
  // What a finished build promises
  // ---------------------------------------------------------------------------

  /**
   * The placeholders: functions and callers as rendered, both base64 texts of
   * the encryption, the payload checksum, the decimal minus bytes, the sleep rule
   * and the C#-only assembly fields.
   */
  lemma PlaceholderFields(config: Config, env: Environment, details: PayloadDetails, functions: string,
                          callers: string, encrypted: (string, string))
    ensures var p := Placeholders(config, env, details, functions, callers, encrypted);
      var base := BaseLanguage(env.ws, config.language);
      && p.functions == functions && p.callers == callers
      && p.encryptedBase64 == encrypted.0 && p.aesIvBase64 == encrypted.1
      && p.payloadHash == details.hash
      && DecimalValue(p.minusBytes) == details.minusBytes
      && p.retries == config.retries
      && (config.retries == "0" ==> p.sleep == "")
      && (config.retries != "0" ==> p.sleep == config.sleep)
      && (base.name == "csharp" ==> p.assemblyType == config.assemblyType && p.assemblyMethod == config.assemblyMethod)
      && (base.name != "csharp" ==> p.assemblyType == "" && p.assemblyMethod == "")
  {
    ItoaRoundTrip(details.minusBytes);
  }

  /**
   * A finished build encrypts the whole payload it was given: with `d` undoing
   * the block function under the derived key, the ciphertext placeholder decrypts
   * and unpads to the payload, and the IV placeholder decodes to the IV.
   */
  lemma FinishEncryptsPayload(config: Config, env: Environment, details: PayloadDetails, functions: string,
                              callers: string, finalKey: string, d: BlockFunction)
    requires forall b: Block :: d(AesKey(env.sha, finalKey), env.cipher(AesKey(env.sha, finalKey), b)) == b
    requires Finish(config, env, details, functions, callers, finalKey).Built?
    ensures var key := AesKey(env.sha, finalKey);
      var enc := AesEncryption(env.cipher, key, details.contents, env.iv);
      && details.contents != []
      && enc.Ok?
      && IsPaddedBase64(enc.value.0) && IsPaddedBase64(enc.value.1)
      && Base64Decode(enc.value.1) == env.iv
      && |Base64Decode(enc.value.0)| % BlockSize == 0
      && Pkcs7Unpad(Flatten(CbcDecrypt(d, key, env.iv, ToBlocks(Base64Decode(enc.value.0))))) == Some(details.contents)
  {
    AesEncryptionRoundTrip(env.cipher, d, AesKey(env.sha, finalKey), details.contents, env.iv);
  }

  /**
   * What a finished Run returns: the raw key (lowered combo outputs, then
   * lowered chain outputs), its SHA-512 in 128 hex digits, the output file rule,
   * and the checksum and minus bytes GetPayloadDetails computed for the payload
   * file (see MinusBytesRule); and it needed a readable payload of at least two
   * bytes and templates that all parse.
   */
  lemma BuiltResult(config: Config, env: Environment, order: seq<string>)
    requires IsIntn(env.intn)
    requires IsKeyOrder(order, FunctionMap(env, config.language, config.keyers, |config.keyers|))
    requires Build(config, env, order).Built?
    ensures config.payloadFile in env.ws.files && |env.ws.files[config.payloadFile]| >= 2
    ensures TemplatesParse(env, config.language, config.keyers, |config.keyers|)
    ensures var r := Build(config, env, order);
      && r.finalKey == ToLower(Join(KeyPieces(env.ws, config.language, config.keyers, "combo"), |config.keyers|))
                       + ToLower(Join(KeyPieces(env.ws, config.language, config.keyers, "chain"), |config.keyers|))
      && r.keyHash == GenerateSHA512(env.sha, Utf8(r.finalKey))
      && |r.keyHash| == 128
      && r.outputFile == OutputFile(config, BaseLanguage(env.ws, config.language))
    ensures var r := Build(config, env, order);
      PayloadDetailsOf(env, config.payloadFile, "sha512")
        == Payload(PayloadDetails(env.ws.files[config.payloadFile], r.payloadHash, r.minusBytes))
  {
    var ks := config.keyers;
    var lang := config.language;
    var details := BuildFinishes(config, env, order);
    var r := Build(config, env, order);
    FinishResult(config, env, details, FunctionsText(FunctionMap(env, lang, ks, |ks|), order),
                 Join(CallerPieces(env, lang, ks), |ks|), RawKey(env.ws, lang, ks));
    PayloadRead(env, config.payloadFile, details);
    RawKeyParts(env.ws, lang, ks);
  }

  /**
   * The code a finished Run writes: the language's base code rendered with the
   * placeholders, whose ciphertext and IV are the encryption of the whole
   * payload file under the key derived from the raw key.
   */
  lemma BuiltCode(config: Config, env: Environment, order: seq<string>)
    requires IsIntn(env.intn)
    requires IsKeyOrder(order, FunctionMap(env, config.language, config.keyers, |config.keyers|))
    requires Build(config, env, order).Built?
    ensures config.payloadFile in env.ws.files
    ensures var r := Build(config, env, order);
      var ks := config.keyers;
      var lang := config.language;
      var contents := env.ws.files[config.payloadFile];
      var enc := AesEncryption(env.cipher, AesKey(env.sha, r.finalKey), contents, env.iv);
      && enc.Ok?
      && env.engine.execute(BaseLanguage(env.ws, lang).baseCode,
           FinalCode(Placeholders(config, env, PayloadDetails(contents, r.payloadHash, r.minusBytes),
             FunctionsText(FunctionMap(env, lang, ks, |ks|), order), Join(CallerPieces(env, lang, ks), |ks|), enc.value)))
         == Rendering(r.finalCode, None)
  {
    var ks := config.keyers;
    var lang := config.language;
    var details := BuildFinishes(config, env, order);
    FinishResult(config, env, details, FunctionsText(FunctionMap(env, lang, ks, |ks|), order),
                 Join(CallerPieces(env, lang, ks), |ks|), RawKey(env.ws, lang, ks));
    PayloadRead(env, config.payloadFile, details);
  }

  /** A payload that is not empty was read from a file of at least two bytes and checksummed by the minus-bytes rule. */
  lemma PayloadRead(env: Environment, payloadFile: string, details: PayloadDetails)
    requires IsIntn(env.intn)
    requires PayloadDetailsOf(env, payloadFile, "sha512") == Payload(details)
    requires details.contents != []
    ensures payloadFile in env.ws.files
    ensures var contents := env.ws.files[payloadFile];
      && details.contents == contents
      && |contents| >= 2
      && 1 <= details.minusBytes < |contents|
      && details.hash == GenerateSHA512(env.sha, contents[..|contents| - details.minusBytes])
  {
    assert details != NoPayload;
    MinusBytesRule(env, payloadFile);
  }

  /** A finished build read its payload and rendered every template before it finished. */
  lemma BuildFinishes(config: Config, env: Environment, order: seq<string>) returns (details: PayloadDetails)
    requires IsIntn(env.intn)
    requires IsKeyOrder(order, FunctionMap(env, config.language, config.keyers, |config.keyers|))
    requires Build(config, env, order).Built?
    ensures PayloadDetailsOf(env, config.payloadFile, "sha512") == Payload(details)
    ensures TemplatesParse(env, config.language, config.keyers, |config.keyers|)
    ensures var ks := config.keyers;
      var lang := config.language;
      Build(config, env, order)
        == Finish(config, env, details, FunctionsText(FunctionMap(env, lang, ks, |ks|), order),
                  Join(CallerPieces(env, lang, ks), |ks|), RawKey(env.ws, lang, ks))
  {
    details := PayloadDetailsOf(env, config.payloadFile, "sha512").details;
  }

  /** The values a finished build returns come straight from its inputs; the payload was not empty. */
  lemma FinishResult(config: Config, env: Environment, details: PayloadDetails, functions: string,
                     callers: string, finalKey: string)
    requires Finish(config, env, details, functions, callers, finalKey).Built?
    ensures var r := Finish(config, env, details, functions, callers, finalKey);
      && details.contents != []
      && r.finalKey == finalKey
      && r.keyHash == GenerateSHA512(env.sha, Utf8(finalKey))
      && r.payloadHash == details.hash
      && r.minusBytes == details.minusBytes
      && r.outputFile == OutputFile(config, BaseLanguage(env.ws, config.language))
    ensures var r := Finish(config, env, details, functions, callers, finalKey);
      var base := BaseLanguage(env.ws, config.language);
      var enc := AesEncryption(env.cipher, AesKey(env.sha, finalKey), details.contents, env.iv);
      && enc.Ok?
      && env.engine.parses(base.baseCode)
      && env.engine.execute(base.baseCode, FinalCode(Placeholders(config, env, details, functions, callers, enc.value)))
           == Rendering(r.finalCode, None)
  {
  }

  /**
   * A payload that cannot be read gives an empty payload, which the padding
   * rejects: the build returns zero values (unless a template panics first).
   */
  lemma MissingPayloadAborts(config: Config, env: Environment, order: seq<string>)
    requires IsIntn(env.intn)
    requires IsKeyOrder(order, FunctionMap(env, config.language, config.keyers, |config.keyers|))
    requires config.payloadFile !in env.ws.files
    ensures Build(config, env, order) == (if TemplatesParse(env, config.language, config.keyers, |config.keyers|) then Aborted else Panicked)
  {
  }
}
