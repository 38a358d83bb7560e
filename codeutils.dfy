/**
 * lib/codeutils.go: the configuration and catalogue records, the derivation of
 * catalogue paths and keyer names, the directory-listing filters and the
 * configuration lint check.
 *
 * The filesystem is a `Workspace` value: the readable files with their bytes,
 * the readable directories with their listings, the paths that exist but cannot
 * be read, and the two XML decoders (xml.Unmarshal into a keyer and into a
 * language record).  `text/template` is
 * a `TemplateEngine`: whether a template text parses, and what executing a
 * parsed template against some data prints and whether it reports an error.
 */
module CodeUtils {
  import opened Wrappers
  import opened Strings
  import opened Helpers
  import opened Seqs

  /** One keyer invocation of the configuration file. */
  datatype ConfigKeyer = ConfigKeyer(name: string, inputs: seq<string>, output: string)

  /** The settings chosen by the user in the YAML configuration file. */
  datatype Config = Config(
    language: string,
    payloadFile: string,
    outputFile: string,
    keyers: seq<ConfigKeyer>,
    retries: string,
    sleep: string,
    disableNesting: bool,
    baseCode: string,
    assemblyType: string,
    assemblyMethod: string)

  /** A language's lang.xml record. */
  datatype Language = Language(name: string, extension: string, baseCode: string)

  /** A keyer record; every field but `name` comes from the keyer's XML document. */
  datatype Keyer = Keyer(
    name: string,
    title: string,
    description: string,
    keyerType: string,
    inputNum: int,
    inputHelp: string,
    functionTemplate: string,
    callerTemplate: string)

  /** The fields xml.Unmarshal fills in from a keyer document. */
  datatype KeyerDocument = KeyerDocument(
    title: string,
    description: string,
    keyerType: string,
    inputNum: int,
    inputHelp: string,
    functionTemplate: string,
    callerTemplate: string)

  /** Go's zero `Keyer{}`, returned together with an error. */
  const ZeroKeyer := Keyer("", "", "", "", 0, "", "", "")

  /** Go's zero `Language{}`. */
  const ZeroLanguage := Language("", "", "")

  datatype DirEntry = DirEntry(name: string, isDir: bool)

  /**
   * The files and directories the program sees. `files` are the readable files,
   * `listings` the readable directories; `unreadable` are paths that os.Stat does
   * not report missing although they cannot be read (a file without read
   * permission, say).
   */
  datatype Workspace = Workspace(
    files: map<string, seq<byte>>,
    listings: map<string, seq<DirEntry>>,
    unreadable: set<string>,
    keyerXml: seq<byte> -> KeyerDocument,
    languageXml: seq<byte> -> Language)

  /**
   * The existence test of ConfigLintCheck: os.Stat fails with a not-exist error
   * only for a path that is neither a readable file, a listed directory nor an
   * unreadable entry. Every readable file exists, but an existing path need not
   * be readable.
   */
  function Exists(ws: Workspace, path: string): (found: bool)
    ensures ReadFile(ws, path).Ok? ==> found
    ensures path in ws.listings || path in ws.unreadable ==> found
    ensures found && ReadFile(ws, path).Err? ==> path in ws.listings || path in ws.unreadable
  {
    path in ws.files || path in ws.listings || path in ws.unreadable
  }

  const ReadFileError := "(ReadFile) Error reading file"

  /** ReadFile of lib/helpers.go: the file's bytes, or its one fixed error. */
  function ReadFile(ws: Workspace, path: string): (r: Result<seq<byte>>)
    ensures r.Ok? <==> path in ws.files
    ensures r.Ok? ==> r.value == ws.files[path]
    ensures r.Err? ==> r.message == ReadFileError
  {
    if path in ws.files then Ok(ws.files[path]) else Err(ReadFileError)
  }

  // ---------------------------------------------------------------------------
  // Catalogue paths and names
  // ---------------------------------------------------------------------------

  const DataDir := "./data"

  function LanguagePath(lang: string): string
  {
    "./data/" + lang + "/lang.xml"
  }

  function KeyerPath(lang: string, keyerFileName: string): string
  {
    "./data/" + lang + "/keyers/" + keyerFileName
  }

  function SectionPath(lang: string, section: string): string
  {
    "./data/" + lang + "/" + section + "/"
  }

  /** ParseLanguage: the decoded lang.xml of the language, or the read error. */
  function ParseLanguage(ws: Workspace, lang: string): (r: Result<Language>)
    ensures r.Ok? <==> LanguagePath(lang) in ws.files
    ensures r.Ok? ==> r.value == ws.languageXml(ws.files[LanguagePath(lang)])
    ensures r.Err? ==> r.message == ReadFileError
  {
    match ReadFile(ws, LanguagePath(lang))
    case Err(m) => Err(m)
    case Ok(b) => Ok(ws.languageXml(b))
  }

  function WithName(doc: KeyerDocument, name: string): Keyer
  {
    Keyer(name, doc.title, doc.description, doc.keyerType, doc.inputNum,
          doc.inputHelp, doc.functionTemplate, doc.callerTemplate)
  }

  /**
   * ParseKeyerFile: reads ./data/<lang>/keyers/<file>; the keyer's name is the
   * file name with one trailing ".xml" removed, every other field comes from
   * the document.
   */
  function ParseKeyerFile(ws: Workspace, lang: string, keyerFileName: string): (r: Result<Keyer>)
    ensures r.Ok? <==> KeyerPath(lang, keyerFileName) in ws.files
    ensures r.Ok? ==> r.value.name == TrimSuffix(keyerFileName, ".xml")
    ensures r.Ok? ==> r.value == WithName(ws.keyerXml(ws.files[KeyerPath(lang, keyerFileName)]), r.value.name)
    ensures r.Err? ==> r.message == ReadFileError
  {
    match ReadFile(ws, KeyerPath(lang, keyerFileName))
    case Err(m) => Err(m)
    case Ok(b) => Ok(WithName(ws.keyerXml(b), TrimSuffix(keyerFileName, ".xml")))
  }

  /** ParseKeyer: the keyer named `keyer` lives in the file "<keyer>.xml". */
  function ParseKeyer(ws: Workspace, lang: string, keyer: string): (r: Result<Keyer>)
    ensures r.Ok? <==> "./data/" + lang + "/keyers/" + keyer + ".xml" in ws.files
    ensures r.Ok? ==> r.value == WithName(ws.keyerXml(ws.files["./data/" + lang + "/keyers/" + keyer + ".xml"]), r.value.name)
    ensures r.Err? ==> r.message == ReadFileError
  {
    assert KeyerPath(lang, keyer + ".xml") == "./data/" + lang + "/keyers/" + keyer + ".xml";
    ParseKeyerFile(ws, lang, keyer + ".xml")
  }

  /**
   * The name/file round trip: ParseKeyer reads ./data/<lang>/keyers/<name>.xml
   * and the keyer it returns carries exactly the name it was asked for.
   */
  lemma ParseKeyerNameRoundTrip(ws: Workspace, lang: string, name: string)
    ensures ParseKeyer(ws, lang, name).Ok? ==> ParseKeyer(ws, lang, name).value.name == name
  {
    TrimSuffixOfAppended(name, ".xml");
  }

  /** PrintCodeFile: at most one leading "data/" and one trailing ".xml" are removed. */
  function PrintCodeFile(m: string): (r: string)
    ensures var p := if HasPrefix(m, "data/") then "data/" else "";
            var x := if HasSuffix(m[|p|..], ".xml") then ".xml" else "";
            m == p + r + x
  {
    TrimSuffix(TrimPrefix(m, "data/"), ".xml")
  }

  lemma PrintCodeFileOfModulePath(path: string)
    ensures PrintCodeFile("data/" + path + ".xml") == path
  {
    assert HasPrefix("data/" + path + ".xml", "data/");
    assert ("data/" + path + ".xml")[5..] == path + ".xml";
    TrimSuffixOfAppended(path, ".xml");
  }

  // ---------------------------------------------------------------------------
  // Directory listings
  // ---------------------------------------------------------------------------

  /** The names of the directories among the first `n` entries of a listing, in listing order. */
  function DirectoryNames(items: seq<DirEntry>, n: nat): seq<string>
    requires n <= |items|
  {
    if n == 0 then []
    else DirectoryNames(items, n - 1) + (if items[n - 1].isDir then [items[n - 1].name] else [])
  }

  lemma {:induction false} DirectoryNamesMembers(items: seq<DirEntry>, n: nat)
    requires n <= |items|
    ensures |DirectoryNames(items, n)| <= n
    ensures forall name :: name in DirectoryNames(items, n) <==>
      exists i :: 0 <= i < n && items[i].isDir && items[i].name == name
  {
    if n > 0 {
      DirectoryNamesMembers(items, n - 1);
    }
  }

  /**
   * Go's regexp `.xml$`: the dot is unescaped and matches any character but a
   * newline, and `$` anchors at the end of the text, so a name matches exactly
   * when it ends with some non-newline character followed by "xml".
   */
  predicate MatchesXmlPattern(n: string)
  {
    |n| >= 4 && n[|n| - 4] != '\n' && n[|n| - 3..] == "xml"
  }

  /**
   * The pattern's meaning, independently of how it is tested: a name matches
   * exactly when it is some text, then one character other than a newline, then
   * "xml" at its very end.
   */
  lemma XmlPatternMeaning(n: string)
    ensures MatchesXmlPattern(n) <==> exists base: string, c: char :: c != '\n' && n == base + [c] + "xml"
  {
    if MatchesXmlPattern(n) {
      assert n == n[..|n| - 4] + [n[|n| - 4]] + "xml";
    }
    forall base: string, c: char | c != '\n' && n == base + [c] + "xml"
      ensures MatchesXmlPattern(n)
    {
      XmlPatternAcceptsAnySeparator(base, c);
    }
  }

  lemma XmlExtensionMatches(n: string)
    requires HasSuffix(n, ".xml")
    ensures MatchesXmlPattern(n)
  {
    assert n[|n| - 4..] == ".xml";
    assert n[|n| - 4] == (n[|n| - 4..])[0];
    assert n[|n| - 3..] == (n[|n| - 4..])[1..];
  }

  /** The unescaped dot: any non-newline character may stand before "xml". */
  lemma XmlPatternAcceptsAnySeparator(base: string, c: char)
    requires c != '\n'
    ensures MatchesXmlPattern(base + [c] + "xml")
  {
    var n := base + [c] + "xml";
    assert n[|n| - 4] == c;
    assert n[|n| - 3..] == "xml";
  }

  /** The names of the non-directory entries among the first `n` that match `.xml$`, in listing order. */
  function XmlFileNames(items: seq<DirEntry>, n: nat): seq<string>
    requires n <= |items|
  {
    if n == 0 then []
    else
      XmlFileNames(items, n - 1)
      + (if !items[n - 1].isDir && MatchesXmlPattern(items[n - 1].name) then [items[n - 1].name] else [])
  }

  lemma {:induction false} XmlFileNamesMembers(items: seq<DirEntry>, n: nat)
    requires n <= |items|
    ensures |XmlFileNames(items, n)| <= n
    ensures forall name :: name in XmlFileNames(items, n) <==>
      exists i :: 0 <= i < n && !items[i].isDir && MatchesXmlPattern(items[i].name) && items[i].name == name
  {
    if n > 0 {
      XmlFileNamesMembers(items, n - 1);
    }
  }

  /** The languages GetLanguages reports: the directories under ./data (none if it cannot be read). */
  function Languages(ws: Workspace): seq<string>
  {
    if DataDir in ws.listings then DirectoryNames(ws.listings[DataDir], |ws.listings[DataDir]|) else []
  }

  method GetLanguages(ws: Workspace) returns (langs: seq<string>)
    ensures langs == Languages(ws)
  {
    if DataDir !in ws.listings {
      return [];
    }
    var items := ws.listings[DataDir];
    langs := [];
    for i := 0 to |items|
      invariant langs == DirectoryNames(items, i)
    {
      if items[i].isDir {
        langs := langs + [items[i].name];
      }
    }
  }

  /** The code files GetCodeFiles reports for a section of a language. */
  function CodeFiles(ws: Workspace, lang: string, section: string): seq<string>
  {
    var folder := SectionPath(lang, section);
    if folder in ws.listings then XmlFileNames(ws.listings[folder], |ws.listings[folder]|) else []
  }

  method GetCodeFiles(ws: Workspace, lang: string, section: string) returns (codeFiles: seq<string>)
    ensures codeFiles == CodeFiles(ws, lang, section)
  {
    var folderPath := SectionPath(lang, section);
    if folderPath !in ws.listings {
      return [];
    }
    var items := ws.listings[folderPath];
    codeFiles := [];
    for i := 0 to |items|
      invariant codeFiles == XmlFileNames(items, i)
    {
      if !items[i].isDir {
        if MatchesXmlPattern(items[i].name) {
          codeFiles := codeFiles + [items[i].name];
        }
      }
    }
  }

  // ---------------------------------------------------------------------------
  // Configuration lint check
  // ---------------------------------------------------------------------------

  const LanguageError := "Language not supported"
  const NoKeyersError := "No Keyers supplied"

  function MissingPayloadError(path: string): string
  {
    path + " file could not be found"
  }

  function UnknownKeyerError(name: string): string
  {
    "Keyer '" + name + "' does not exist"
  }

  function KeyerTypeError(name: string, keyerType: string): string
  {
    "Keyer '" + name + "' type is not valid: " + keyerType
  }

  function InputCountError(name: string): string
  {
    name + " inputs do not match expected inputs"
  }

  predicate IsKeyType(t: string)
  {
    t == "chain" || t == "combo"
  }

  /** A keyer invocation the lint check accepts. */
  predicate KeyerIsValid(ws: Workspace, lang: string, k: ConfigKeyer)
  {
    var parsed := ParseKeyer(ws, lang, k.name);
    parsed.Ok? && IsKeyType(parsed.value.keyerType) && |k.inputs| == parsed.value.inputNum
  }

  /**
   * The errors one invocation contributes: one for a keyer that does not
   * resolve (and nothing else), otherwise a type error and a count error, each
   * independently.
   */
  function KeyerLintErrors(ws: Workspace, lang: string, k: ConfigKeyer): seq<string>
  {
    match ParseKeyer(ws, lang, k.name)
    case Err(_) => [UnknownKeyerError(k.name)]
    case Ok(obj) => TypeLintErrors(k, obj) + CountLintErrors(k, obj)
  }

  function TypeLintErrors(k: ConfigKeyer, obj: Keyer): seq<string>
  {
    if !IsKeyType(obj.keyerType) then [KeyerTypeError(k.name, obj.keyerType)] else []
  }

  function CountLintErrors(k: ConfigKeyer, obj: Keyer): seq<string>
  {
    if |k.inputs| != obj.inputNum then [InputCountError(k.name)] else []
  }

  lemma KeyerLintErrorsShape(ws: Workspace, lang: string, k: ConfigKeyer)
    ensures var e := KeyerLintErrors(ws, lang, k);
      && (ParseKeyer(ws, lang, k.name).Err? ==> e == [UnknownKeyerError(k.name)])
      && (ParseKeyer(ws, lang, k.name).Ok? ==>
        var obj := ParseKeyer(ws, lang, k.name).value;
        && |e| == (if IsKeyType(obj.keyerType) then 0 else 1) + (if |k.inputs| == obj.inputNum then 0 else 1)
        && (!IsKeyType(obj.keyerType) ==> e[0] == KeyerTypeError(k.name, obj.keyerType))
        && (|k.inputs| != obj.inputNum ==> e[|e| - 1] == InputCountError(k.name)))
      && (e == [] <==> KeyerIsValid(ws, lang, k))
  {
  }

  /** The errors of each invocation, position by position. */
  function KeyerLintParts(ws: Workspace, lang: string, ks: seq<ConfigKeyer>): (parts: seq<seq<string>>)
    ensures |parts| == |ks|
  {
    seq(|ks|, i requires 0 <= i < |ks| => KeyerLintErrors(ws, lang, ks[i]))
  }

  function PayloadLintErrors(ws: Workspace, path: string): seq<string>
  {
    if Exists(ws, path) then [] else [MissingPayloadError(path)]
  }

  /** Every error the lint check reports, in the order it reports them. */
  function LintErrors(ws: Workspace, config: Config): seq<string>
  {
    if config.language !in Languages(ws) then [LanguageError]
    else if config.keyers == [] then [NoKeyersError]
    else PayloadLintErrors(ws, config.payloadFile) + Join(KeyerLintParts(ws, config.language, config.keyers), |config.keyers|)
  }

  /**
   * The checks of one configured keyer, the body of ConfigLintCheck's loop: the
   * early return stands for the loop's `continue` after an unknown keyer.
   */
  method LintKeyer(ws: Workspace, lang: string, keyer: ConfigKeyer) returns (errs: seq<string>)
    ensures errs == KeyerLintErrors(ws, lang, keyer)
  {
    var parsed := ParseKeyer(ws, lang, keyer.name);
    if parsed.Err? {
      return [UnknownKeyerError(keyer.name)];
    }
    var keyerObj := parsed.value;
    errs := [];
    if keyerObj.keyerType != "chain" && keyerObj.keyerType != "combo" {
      errs := errs + [KeyerTypeError(keyer.name, keyerObj.keyerType)];
    }
    if |keyer.inputs| != keyerObj.inputNum {
      errs := errs + [InputCountError(keyer.name)];
    }
  }

  /** ConfigLintCheck: reports the lint errors and passes exactly when there are none. */
  method ConfigLintCheck(ws: Workspace, config: Config) returns (ok: bool, errorsDetected: seq<string>)
    ensures errorsDetected == LintErrors(ws, config)
    ensures ok <==> errorsDetected == []
  {
    var langs := GetLanguages(ws);
    var supported, _ := StrInSlice(config.language, langs);
    if !supported {
      return false, [LanguageError];
    }
    if |config.keyers| == 0 {
      return false, [NoKeyersError];
    }
    errorsDetected := [];
    if !Exists(ws, config.payloadFile) {
      errorsDetected := errorsDetected + [MissingPayloadError(config.payloadFile)];
    }
    ghost var payloadErrors := errorsDetected;
    var ks := config.keyers;
    ghost var parts := KeyerLintParts(ws, config.language, ks);
    for i := 0 to |ks|
      invariant errorsDetected == payloadErrors + Join(parts, i)
    {
      var keyerErrors := LintKeyer(ws, config.language, ks[i]);
      errorsDetected := errorsDetected + keyerErrors;
      ConcatAssoc(payloadErrors, Join(parts, i), parts[i]);
    }
    if |errorsDetected| > 0 {
      return false, errorsDetected;
    }
    return true, [];
  }

  /** With an unsupported language the only error is the language error. */
  lemma LintUnsupportedLanguage(ws: Workspace, config: Config)
    requires config.language !in Languages(ws)
    ensures LintErrors(ws, config) == [LanguageError]
  {
  }

  /** With a supported language and no keyers the only error is the missing-keyers error. */
  lemma LintNoKeyers(ws: Workspace, config: Config)
    requires config.language in Languages(ws) && config.keyers == []
    ensures LintErrors(ws, config) == [NoKeyersError]
  {
  }

  /**
   * Past the early exits, a missing payload is reported first, and the
   * errors of the first `i` keyers come, in order, before everything else.
   */
  lemma LintAggregationOrder(ws: Workspace, config: Config, i: nat)
    requires config.language in Languages(ws) && config.keyers != []
    requires i <= |config.keyers|
    ensures !Exists(ws, config.payloadFile) ==> LintErrors(ws, config)[0] == MissingPayloadError(config.payloadFile)
    ensures var early := PayloadLintErrors(ws, config.payloadFile) + Join(KeyerLintParts(ws, config.language, config.keyers), i);
      |early| <= |LintErrors(ws, config)| && LintErrors(ws, config)[..|early|] == early
  {
    var parts := KeyerLintParts(ws, config.language, config.keyers);
    var p := PayloadLintErrors(ws, config.payloadFile);
    var all := Join(parts, |parts|);
    var early := Join(parts, i);
    JoinPrefix(parts, i, |parts|);
    assert LintErrors(ws, config) == p + all;
    assert (p + all)[..|p + early|] == p + all[..|early|];
  }

  /** The lint check passes exactly when every individual condition holds. */
  lemma LintPassesIff(ws: Workspace, config: Config)
    ensures LintErrors(ws, config) == [] <==>
      && config.language in Languages(ws)
      && config.keyers != []
      && Exists(ws, config.payloadFile)
      && forall i :: 0 <= i < |config.keyers| ==> KeyerIsValid(ws, config.language, config.keyers[i])
  {
    var parts := KeyerLintParts(ws, config.language, config.keyers);
    JoinEmpty(parts, |parts|);
    forall i | 0 <= i < |config.keyers|
      ensures parts[i] == [] <==> KeyerIsValid(ws, config.language, config.keyers[i])
    {
      KeyerLintErrorsShape(ws, config.language, config.keyers[i]);
    }
  }

  /** Each keyer contributes at most two errors, so a configuration has at most 1 + 2 * |keyers|. */
  lemma LintErrorCount(ws: Workspace, config: Config)
    ensures |LintErrors(ws, config)| <= 1 + 2 * |config.keyers|
  {
    var parts := KeyerLintParts(ws, config.language, config.keyers);
    forall i | 0 <= i < |parts| ensures |parts[i]| <= 2 {
      KeyerLintErrorsShape(ws, config.language, config.keyers[i]);
    }
    JoinLength(parts, |parts|, 2);
  }

  // ---------------------------------------------------------------------------
  // Templates
  // ---------------------------------------------------------------------------

  /** The placeholders of a language's base code. */
  datatype FinalCodeTemplate = FinalCodeTemplate(
    functions: string,
    callers: string,
    encryptedBase64: string,
    payloadHash: string,
    aesIvBase64: string,
    minusBytes: string,
    retries: string,
    sleep: string,
    assemblyType: string,
    assemblyMethod: string)

  /** The data a template is executed against. */
  datatype TemplateData = KeyerInputs(keyer: ConfigKeyer) | FinalCode(placeholders: FinalCodeTemplate)

  /** What executing a template printed, and the error it reported, if any. */
  datatype Rendering = Rendering(text: string, err: Option<string>)

  datatype TemplateEngine = TemplateEngine(
    parses: string -> bool,
    execute: (string, TemplateData) -> Rendering)

  /**
   * What text/template does with an empty text: it parses, and executing it
   * prints nothing and reports no error, whatever the data.
   */
  ghost predicate EmptyTemplateRendersEmpty(engine: TemplateEngine)
  {
    engine.parses("") && forall d: TemplateData :: engine.execute("", d) == Rendering("", None)
  }

  /**
   * UpdateTemplate: template.Must panics (None) when the text does not parse;
   * otherwise whatever execution printed is returned together with its error.
   */
  function UpdateTemplate(engine: TemplateEngine, code: string, data: TemplateData): (r: Option<Rendering>)
    ensures r.None? <==> !engine.parses(code)
    ensures r.Some? ==> r.value == engine.execute(code, data)
  {
    if engine.parses(code) then Some(engine.execute(code, data)) else None
  }
}
