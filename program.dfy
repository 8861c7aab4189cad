/**
 * The checksum command-line tool: one file, one digest, optionally checked
 * against an expected value. The configuration object that the argument
 * parser and the main routine update field by field is a class; the rest of
 * the pipeline (inference, algorithm choice, encoding, verdict) is also given
 * as pure functions, and `Run` is proved to compute exactly `Checksum`.
 */
module Program {
  import opened Wrappers
  import opened ClrString
  import opened Encoding

  // ------------------------------------------------------------ algorithms

  /** The four digest algorithms on offer. */
  datatype Algorithm = MD5 | SHA1 | SHA256 | SHA512

  /** The size in bytes of each algorithm's digest. */
  function DigestSize(a: Algorithm): nat {
    match a
    case MD5 => 16
    case SHA1 => 20
    case SHA256 => 32
    case SHA512 => 64
  }

  /** `HashLengthType`: the length of a check value that names each algorithm. */
  function HashLength(a: Algorithm): nat {
    match a
    case MD5 => 32
    case SHA1 => 40
    case SHA256 => 64
    case SHA512 => 128
  }

  /** The type names the tool writes into the configuration when it infers a type. */
  function TypeName(a: Algorithm): string {
    match a
    case MD5 => "md5"
    case SHA1 => "sha1"
    case SHA256 => "sha256"
    case SHA512 => "sha512"
  }

  /**
   * The library's hash providers, of which only the digest length is known:
   * any function that maps every input to a digest of the right size.
   */
  type DigestFunction = f: (Algorithm, seq<byte>) -> seq<byte>
    | forall a: Algorithm, data: seq<byte> :: |f(a, data)| == DigestSize(a)
    witness (a: Algorithm, data: seq<byte>) => seq(DigestSize(a), i => 0)

  // ------------------------------------------------------------ environment

  /** The option values the option parser extracted, or the failure it reported. */
  datatype CommandLine =
    | Unparsable   // the parser threw an `OptionException`
    | Parsed(help: bool, file: NullableString, hashType: NullableString,
             check: NullableString, output: NullableString, extra: seq<string>)

  /**
   * The file system as the tool sees it: how a path resolves to a full path
   * (`None` where `Path.GetFullPath` throws) and the contents of the files that
   * exist, by full path.
   */
  datatype FileSystem = FileSystem(resolve: string -> Option<string>, files: map<string, seq<byte>>)

  /** `Path.GetFullPath`, which always throws on the empty path. */
  function GetFullPath(fs: FileSystem, path: string): (r: Option<string>)
    ensures path == "" ==> r.None?
  {
    if path == "" then None else fs.resolve(path)
  }

  /** What the tool prints before it exits. */
  datatype Message =
    | Usage                    // the help text
    | FileMissing(path: string)
    | HashValue(hash: string)  // compute mode: the encoded digest alone
    | HashesMatch
    | HashesDiffer(actual: string)

  /** How a run ends: an exit code with its message, or an exception nobody catches. */
  datatype Outcome = Exit(code: int, message: Message) | Unhandled

  /** The line printed for each message other than the help text. */
  function Text(m: Message): (r: string)
    requires !m.Usage?
    ensures m.HashValue? ==> r == m.hash
    ensures m.FileMissing? ==> |r| == |m.path| + 22 && r[6..6 + |m.path|] == m.path
  {
    match m
    case FileMissing(path) => "File '" + path + "' doesn't exist."
    case HashValue(hash) => hash
    case HashesMatch => "Hashes match."
    case HashesDiffer(actual) => "Error - hashes do not match. Actual value was '" + actual + "'."
  }

  // ------------------------------------------------------------ configuration

  /** The four settings, as a value. */
  datatype Settings = Settings(filePath: NullableString, hashType: NullableString,
                               hashToCheck: NullableString, outputType: NullableString)

  /** A fresh configuration: every setting null. */
  const Unset := Settings(None, None, None, None)

  /** The configuration object shared by the parser and the main routine. */
  class ConfigurationSettings {
    var filePath: NullableString
    var hashType: NullableString
    var hashToCheck: NullableString
    var outputType: NullableString

    constructor ()
      ensures Snapshot() == Unset
    {
      filePath, hashType, hashToCheck, outputType := None, None, None, None;
    }

    /** The current settings. */
    function Snapshot(): Settings
      reads this
    {
      Settings(filePath, hashType, hashToCheck, outputType)
    }
  }

  /** An option that was given replaces the setting; one that was not leaves it. */
  function Given(option: NullableString, current: NullableString): NullableString {
    if option.Some? then option else current
  }

  /** The file path once every `'` and `"` is removed and the result trimmed. */
  function CleanPath(path: string): (r: string)
    ensures '\'' !in r && '"' !in r
    ensures r == [] || (!IsWhiteSpace(r[0]) && !IsWhiteSpace(r[|r| - 1]))
  {
    var withoutApostrophes := Remove(path, '\'');
    var unquoted := Remove(withoutApostrophes, '"');
    RemoveKeepsOthers(withoutApostrophes, '"', '\'');
    TrimKeepsNonWhiteSpace(unquoted, '\'');
    TrimKeepsNonWhiteSpace(unquoted, '"');
    Trim(unquoted)
  }

  /** A non-blank hash type is trimmed; a blank or null one is kept as it is. */
  function TrimmedType(hashType: NullableString): (r: NullableString)
    ensures IsBlank(hashType) ==> r == hashType
    ensures !IsBlank(hashType) ==> r.Some? && !IsBlank(r) && r.value == Trim(hashType.value)
  {
    if IsBlank(hashType) then hashType
    else
      TrimEmptyIffBlank(hashType.value);
      TrimEmptyIffBlank(Trim(hashType.value));
      TrimIdempotent(hashType.value);
      Some(Trim(hashType.value))
  }

  /** The settings once the option callbacks have stored every value given. */
  function WithOptions(initial: Settings, cl: CommandLine): Settings
    requires cl.Parsed?
  {
    Settings(Given(cl.file, initial.filePath), Given(cl.hashType, initial.hashType),
             Given(cl.check, initial.hashToCheck), Given(cl.output, initial.outputType))
  }

  /** The first positional argument replaces a blank path. */
  function WithPositional(filePath: NullableString, extra: seq<string>): (r: NullableString)
    ensures (!IsBlank(filePath) || |extra| == 0) ==> r == filePath
    ensures IsBlank(filePath) && |extra| != 0 ==> r == Some(extra[0])
  {
    if |extra| != 0 && IsBlank(filePath) then Some(extra[0]) else filePath
  }

  /** The path cleaned and a non-blank type trimmed. */
  function Cleaned(s: Settings): (r: Settings)
    requires s.filePath.Some?
    ensures r.filePath.Some?
  {
    s.(filePath := Some(CleanPath(s.filePath.value)), hashType := TrimmedType(s.hashType))
  }

  /**
   * The settings after argument parsing, or `None` where the help text is
   * shown instead: on a parse failure, a help flag, or a path still blank
   * after the first positional argument was taken in place of a blank `-f`.
   */
  function ConfiguredSettings(initial: Settings, cl: CommandLine): (r: Option<Settings>)
    ensures r.Some? ==> r.value.filePath.Some?
  {
    if cl.Unparsable? then None
    else
      var given := WithOptions(initial, cl);
      var positioned := given.(filePath := WithPositional(given.filePath, cl.extra));
      if cl.help || IsBlank(positioned.filePath) then None else Some(Cleaned(positioned))
  }

  /**
   * Algorithm inference: with a non-blank check value and a blank type, a
   * check value of one of the table's lengths names the type; otherwise the
   * type stays as it is.
   */
  function InferredHashType(hashType: NullableString, check: NullableString): (r: NullableString)
    ensures r != hashType ==>
      (IsBlank(hashType) && !IsBlank(check) &&
       exists a: Algorithm :: r == Some(TypeName(a)) && |check.value| == HashLength(a))
  {
    if !IsBlank(check) && IsBlank(hashType) then
      var hashLength := |check.value|;
      if hashLength == HashLength(MD5) then Some(TypeName(MD5))
      else if hashLength == HashLength(SHA1) then Some(TypeName(SHA1))
      else if hashLength == HashLength(SHA256) then Some(TypeName(SHA256))
      else if hashLength == HashLength(SHA512) then Some(TypeName(SHA512))
      else hashType
    else hashType
  }

  /** `ToLowerSafe`: lower-cases a string and lets `null` through. */
  function ToLowerSafe(s: NullableString): (r: NullableString)
    ensures r.None? <==> s.None?
    ensures r.Some? ==> |r.value| == |s.value| && EqualsIgnoreCase(r.value, s.value)
    ensures r.Some? ==> Lower(r.value) == r.value
  {
    if s.None? then None else Some(Lower(s.value))
  }

  /**
   * The hash provider chosen for a type: SHA1, SHA256 or SHA512 when the
   * lower-cased type is that algorithm's name, MD5 for anything else
   * (null, blank, "md5" or unknown).
   */
  function SelectAlgorithm(hashType: NullableString): (r: Algorithm)
    ensures r != MD5 ==> hashType.Some? && Lower(hashType.value) == TypeName(r)
    ensures forall a: Algorithm :: a != MD5 && hashType.Some? && Lower(hashType.value) == TypeName(a) ==> r == a
  {
    var lowered := ToLowerSafe(hashType);
    if lowered == Some(TypeName(SHA1)) then SHA1
    else if lowered == Some(TypeName(SHA256)) then SHA256
    else if lowered == Some(TypeName(SHA512)) then SHA512
    else MD5
  }

  /** Base64 output is chosen only by a non-blank output type equal to "b64" ignoring case. */
  predicate UseBase64(outputType: NullableString)
    ensures UseBase64(outputType) ==> outputType.Some? && |outputType.value| == 3
  {
    !IsBlank(outputType) && Lower(outputType.value) == "b64"
  }

  /** The digest as printed: upper-case hex without dashes, or padded base64. */
  function Encoded(hash: seq<byte>, outputType: NullableString): (r: string)
    ensures !UseBase64(outputType) ==> r == Base16(hash)
  {
    if !UseBase64(outputType) then
      DashFreeBitConverterIsBase16(hash);
      Remove(BitConverterString(hash), '-')
    else Base64(hash)
  }

  /** Compute mode prints the digest; check mode compares it ignoring case. */
  function Verdict(hashToCheck: NullableString, hashString: string): (r: Outcome)
    ensures r.Exit? && (r.code == 0 || r.code == 1)
  {
    if IsBlank(hashToCheck) then Exit(0, HashValue(hashString))
    else if EqualsIgnoreCase(hashToCheck.value, hashString) then Exit(0, HashesMatch)
    else Exit(1, HashesDiffer(hashString))
  }

  /**
   * The run once the arguments gave the settings `s`: the path resolved, the
   * file looked up, the digest computed, encoded and judged.
   */
  function Resolved(s: Settings, fs: FileSystem, digest: DigestFunction): (r: Outcome)
    requires s.filePath.Some?
    ensures r.Unhandled? <==> GetFullPath(fs, s.filePath.value).None?
    ensures r.Exit? ==> r.code == 0 || r.code == 1
  {
    match GetFullPath(fs, s.filePath.value)
    case None => Unhandled
    case Some(fullPath) =>
      if fullPath !in fs.files then Exit(1, FileMissing(fullPath))
      else
        var algorithm := SelectAlgorithm(InferredHashType(s.hashType, s.hashToCheck));
        Verdict(s.hashToCheck, Encoded(digest(algorithm, fs.files[fullPath]), s.outputType))
  }

  /** A whole run of the tool, as a value. */
  function Checksum(cl: CommandLine, fs: FileSystem, digest: DigestFunction): (r: Outcome)
    ensures r == Exit(-1, Usage) <==> ConfiguredSettings(Unset, cl).None?
    ensures r.Exit? ==> -1 <= r.code <= 1
  {
    match ConfiguredSettings(Unset, cl)
    case None => Exit(-1, Usage)
    case Some(s) => Resolved(s, fs, digest)
  }

  // ------------------------------------------------------------ the program

  /** The option callbacks: every option that was given stores its value. */
  method StoreOptions(configuration: ConfigurationSettings, cl: CommandLine)
    requires cl.Parsed?
    modifies configuration
    ensures configuration.Snapshot() == WithOptions(old(configuration.Snapshot()), cl)
  {
    if cl.file.Some? {
      configuration.filePath := cl.file;
    }
    if cl.hashType.Some? {
      configuration.hashType := cl.hashType;
    }
    if cl.check.Some? {
      configuration.hashToCheck := cl.check;
    }
    if cl.output.Some? {
      configuration.outputType := cl.output;
    }
  }

  /**
   * Argument parsing: the option callbacks store the given values, the first
   * positional argument stands in for a blank path, and the path and type are
   * cleaned. `showHelp` is true where the help text ends the run.
   */
  method ParseArguments(configuration: ConfigurationSettings, cl: CommandLine) returns (showHelp: bool)
    modifies configuration
    ensures showHelp <==> ConfiguredSettings(old(configuration.Snapshot()), cl).None?
    ensures !showHelp ==> configuration.Snapshot() == ConfiguredSettings(old(configuration.Snapshot()), cl).value
  {
    if cl.Unparsable? {
      return true;
    }
    StoreOptions(configuration, cl);
    ghost var given := configuration.Snapshot();
    if |cl.extra| != 0 && IsBlank(configuration.filePath) {
      configuration.filePath := Some(cl.extra[0]);
    }
    ghost var positioned := configuration.Snapshot();
    assert positioned == given.(filePath := WithPositional(given.filePath, cl.extra));
    if cl.help || IsBlank(configuration.filePath) {
      return true;
    }
    configuration.filePath := Some(CleanPath(configuration.filePath.value));
    if !IsBlank(configuration.hashType) {
      configuration.hashType := Some(Trim(configuration.hashType.value));
    }
    assert configuration.hashType == TrimmedType(positioned.hashType);
    assert configuration.Snapshot() == Cleaned(positioned);
    return false;
  }

  /** Algorithm inference, in place: the table's type for a check value of a table length. */
  method InferHashType(configuration: ConfigurationSettings)
    modifies configuration`hashType
    ensures configuration.hashType == InferredHashType(old(configuration.hashType), configuration.hashToCheck)
  {
    if !IsBlank(configuration.hashToCheck) && IsBlank(configuration.hashType) {
      var hashLength := |configuration.hashToCheck.value|;
      if hashLength == HashLength(MD5) {
        configuration.hashType := Some(TypeName(MD5));
      } else if hashLength == HashLength(SHA1) {
        configuration.hashType := Some(TypeName(SHA1));
      } else if hashLength == HashLength(SHA256) {
        configuration.hashType := Some(TypeName(SHA256));
      } else if hashLength == HashLength(SHA512) {
        configuration.hashType := Some(TypeName(SHA512));
      }
    }
  }

  /** The hash provider: MD5 unless the lower-cased type names another algorithm. */
  method ChooseHashProvider(hashType: NullableString) returns (algorithm: Algorithm)
    ensures algorithm == SelectAlgorithm(hashType)
  {
    algorithm := MD5;
    if ToLowerSafe(hashType) == Some(TypeName(SHA1)) {
      algorithm := SHA1;
    } else if ToLowerSafe(hashType) == Some(TypeName(SHA256)) {
      algorithm := SHA256;
    } else if ToLowerSafe(hashType) == Some(TypeName(SHA512)) {
      algorithm := SHA512;
    }
  }

  /** The final report: the digest alone, or the comparison's verdict and exit code. */
  method Report(hashToCheck: NullableString, hashString: string) returns (outcome: Outcome)
    ensures outcome == Verdict(hashToCheck, hashString)
  {
    if IsBlank(hashToCheck) {
      return Exit(0, HashValue(hashString));
    }
    var exitCode := 0;
    var message := HashesMatch;
    if !EqualsIgnoreCase(hashToCheck.value, hashString) {
      message := HashesDiffer(hashString);
      exitCode := 1;
    }
    return Exit(exitCode, message);
  }

  /**
   * The main routine after argument parsing: resolve, look up, hash, encode,
   * report. The fields it leaves behind are not specified: `Main` exits
   * right after this and nothing reads them again.
   */
  method Execute(configuration: ConfigurationSettings, fs: FileSystem, digest: DigestFunction)
    returns (outcome: Outcome)
    requires configuration.filePath.Some?
    modifies configuration
    ensures outcome == Resolved(old(configuration.Snapshot()), fs, digest)
  {
    ghost var parsed := configuration.Snapshot();
    var fullPath := GetFullPath(fs, configuration.filePath.value);
    if fullPath.None? {
      return Unhandled;
    }
    configuration.filePath := fullPath;
    if configuration.filePath.value !in fs.files {
      return Exit(1, FileMissing(configuration.filePath.value));
    }

    InferHashType(configuration);
    var algorithm := ChooseHashProvider(configuration.hashType);
    assert algorithm == SelectAlgorithm(InferredHashType(parsed.hashType, parsed.hashToCheck));

    var hash := digest(algorithm, fs.files[configuration.filePath.value]);
    var hashString := Encoded(hash, configuration.outputType);
    assert Resolved(parsed, fs, digest) == Verdict(parsed.hashToCheck, hashString);
    outcome := Report(configuration.hashToCheck, hashString);
  }

  /** The main routine: the whole run, ending in an exit code and a message. */
  method Run(cl: CommandLine, fs: FileSystem, digest: DigestFunction) returns (outcome: Outcome)
    ensures outcome == Checksum(cl, fs, digest)
  {
    var configuration := new ConfigurationSettings();
    var showHelp := ParseArguments(configuration, cl);
    if showHelp {
      return Exit(-1, Usage);
    }
    outcome := Execute(configuration, fs, digest);
  }
}
