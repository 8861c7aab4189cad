/**
 * What the checksum tool promises, proved of the pure description `Checksum`
 * that `Run` is shown to compute: how arguments become settings, how the
 * algorithm is inferred and chosen, what the encodings look like and how a
 * run ends.
 */
module ProgramProperties {
  import opened Wrappers
  import opened ClrString
  import opened Encoding
  import opened Program

  /** The cleaned path a run goes on with, when parsing does not end in help. */
  function ConfiguredPath(cl: CommandLine): Option<string> {
    match ConfiguredSettings(Unset, cl)
    case None => None
    case Some(s) => s.filePath
  }

  // ------------------------------------------------------------ arguments

  /**
   * Parsing into a fresh configuration: the given options are the settings,
   * the positional argument stands in for a blank `-f`, and the result is
   * cleaned unless the help text is due.
   */
  lemma FromFreshConfiguration(cl: CommandLine)
    requires cl.Parsed?
    ensures var path := WithPositional(cl.file, cl.extra);
      ConfiguredSettings(Unset, cl)
      == if cl.help || IsBlank(path) then None
         else Some(Settings(Some(CleanPath(path.value)), TrimmedType(cl.hashType), cl.check, cl.output))
  {
    var given := WithOptions(Unset, cl);
    assert given == Settings(cl.file, cl.hashType, cl.check, cl.output);
    var positioned := given.(filePath := WithPositional(cl.file, cl.extra));
    if !cl.help && !IsBlank(positioned.filePath) {
      assert Cleaned(positioned) == Settings(Some(CleanPath(positioned.filePath.value)), TrimmedType(cl.hashType),
                                             cl.check, cl.output);
    }
  }

  /**
   * The help text ends the run exactly on a parse failure, a help flag, or a
   * path that is blank once a blank `-f` has given way to the first positional
   * argument; and then it does so whatever the files and the digests are.
   */
  lemma HelpConditions(cl: CommandLine, fs: FileSystem, digest: DigestFunction)
    ensures ConfiguredSettings(Unset, cl).None? <==>
      cl.Unparsable? || cl.help || IsBlank(WithPositional(cl.file, cl.extra))
    ensures ConfiguredSettings(Unset, cl).None? ==> Checksum(cl, fs, digest) == Exit(-1, Usage)
  {
    if cl.Parsed? {
      assert WithOptions(Unset, cl).filePath == cl.file;
    }
  }

  /** With no `-f` and no positional argument the run ends in help. */
  lemma NoPathShowsHelp(cl: CommandLine, fs: FileSystem, digest: DigestFunction)
    requires cl.Parsed? && cl.file.None? && cl.extra == []
    ensures Checksum(cl, fs, digest) == Exit(-1, Usage)
  {
  }

  /** A non-blank `-f` value is the path, cleaned, whatever positional arguments follow. */
  lemma ExplicitFileWins(cl: CommandLine)
    requires cl.Parsed? && !cl.help && !IsBlank(cl.file)
    ensures ConfiguredSettings(Unset, cl)
         == Some(Settings(Some(CleanPath(cl.file.value)), TrimmedType(cl.hashType), cl.check, cl.output))
  {
    FromFreshConfiguration(cl);
  }

  /** Only a blank `-f` gives way to the first positional argument. */
  lemma PositionalFallback(cl: CommandLine)
    requires cl.Parsed? && !cl.help && IsBlank(cl.file) && |cl.extra| != 0 && !IsBlank(Some(cl.extra[0]))
    ensures ConfiguredPath(cl) == Some(CleanPath(cl.extra[0]))
  {
    FromFreshConfiguration(cl);
  }

  /**
   * Cleaning removes the quote characters wherever they are, not only at the
   * ends, and keeps every other character that is not white space.
   */
  lemma CleanPathKeepsOthers(path: string, d: char)
    requires d != '\'' && d != '"' && !IsWhiteSpace(d)
    ensures d in CleanPath(path) <==> d in path
  {
    var withoutApostrophes := Remove(path, '\'');
    RemoveKeepsOthers(path, '\'', d);
    RemoveKeepsOthers(withoutApostrophes, '"', d);
    TrimKeepsNonWhiteSpace(Remove(withoutApostrophes, '"'), d);
  }

  /** A path made of nothing but `'` and `"` characters cleans to the empty string. */
  lemma QuotesOnlyCleansToEmpty(path: string)
    requires forall i :: 0 <= i < |path| ==> path[i] == '"' || path[i] == '\''
    ensures CleanPath(path) == []
  {
    RemoveLeavesOther(path, '\'', '"');
    RemoveAll(Remove(path, '\''), '"');
  }

  /**
   * The blank test comes before the quotes are removed: a non-empty path made
   * of quote characters passes it, cleans to the empty string and reaches
   * `Path.GetFullPath`, which throws, instead of ending in the help text.
   */
  lemma QuotesOnlyPathIsUnhandled(cl: CommandLine, fs: FileSystem, digest: DigestFunction, path: string)
    requires cl.Parsed? && !cl.help && cl.file == Some(path) && path != []
    requires forall i :: 0 <= i < |path| ==> path[i] == '"' || path[i] == '\''
    ensures Checksum(cl, fs, digest) == Unhandled
  {
    assert !IsWhiteSpace(path[0]);
    QuotesOnlyCleansToEmpty(path);
    ExplicitFileWins(cl);
  }

  /** An existing path that is missing from the file system ends the run with 1, whatever the digests. */
  lemma MissingFileExitsOne(cl: CommandLine, fs: FileSystem, digest: DigestFunction, path: string, fullPath: string)
    requires ConfiguredPath(cl) == Some(path)
    requires GetFullPath(fs, path) == Some(fullPath) && fullPath !in fs.files
    ensures Checksum(cl, fs, digest) == Exit(1, FileMissing(fullPath))
  {
  }

  // ------------------------------------------------------------ algorithm

  /** Lower-casing leaves the type names as they are. */
  lemma LowerTypeName(a: Algorithm)
    ensures Lower(TypeName(a)) == TypeName(a)
  {
    var n := TypeName(a);
    assert forall i :: 0 <= i < |n| ==> !('A' <= n[i] <= 'Z');
  }

  /** A check value of a table length, with no type, names that length's algorithm. */
  lemma InferenceFromLength(hashType: NullableString, check: NullableString, a: Algorithm)
    requires !IsBlank(check) && IsBlank(hashType) && |check.value| == HashLength(a)
    ensures InferredHashType(hashType, check) == Some(TypeName(a))
    ensures SelectAlgorithm(InferredHashType(hashType, check)) == a
  {
    LowerTypeName(a);
  }

  /**
   * Inference changes nothing when the type is not blank, when the check
   * value is blank, or when its length is in no row of the table.
   */
  lemma NoInference(hashType: NullableString, check: NullableString)
    requires !IsBlank(hashType) || IsBlank(check) || forall a: Algorithm :: |check.value| != HashLength(a)
    ensures InferredHashType(hashType, check) == hashType
  {
    if !IsBlank(check) && IsBlank(hashType) {
      assert |check.value| != HashLength(MD5) && |check.value| != HashLength(SHA1);
      assert |check.value| != HashLength(SHA256) && |check.value| != HashLength(SHA512);
    }
  }

  /** A null or blank type selects MD5. */
  lemma BlankTypeSelectsMD5(hashType: NullableString)
    requires IsBlank(hashType)
    ensures SelectAlgorithm(hashType) == MD5
  {
    if hashType.Some? && hashType.value != [] {
      var low := Lower(hashType.value);
      assert low[0] == hashType.value[0];
      forall a: Algorithm | a != MD5 ensures low != TypeName(a) {
        assert TypeName(a)[0] == 's';
      }
    }
  }

  /** With no type and a check value of any other length, MD5 is used. */
  lemma OtherLengthSelectsMD5(hashType: NullableString, check: NullableString)
    requires IsBlank(hashType) && !IsBlank(check)
    requires forall a: Algorithm :: |check.value| != HashLength(a)
    ensures SelectAlgorithm(InferredHashType(hashType, check)) == MD5
  {
    NoInference(hashType, check);
    BlankTypeSelectsMD5(hashType);
  }

  /** A type that equals an algorithm's name ignoring case selects that algorithm. */
  lemma NamedTypeSelects(t: string, a: Algorithm)
    requires EqualsIgnoreCase(t, TypeName(a))
    ensures SelectAlgorithm(Some(t)) == a
  {
    LowerTypeName(a);
  }

  /**
   * An explicit `-t` value is trimmed and then matched ignoring case: when it
   * names an algorithm, that algorithm is used whatever the check value.
   */
  lemma ExplicitTypeSelects(cl: CommandLine, t: string, a: Algorithm)
    requires cl.Parsed? && cl.hashType == Some(t) && EqualsIgnoreCase(Trim(t), TypeName(a))
    requires ConfiguredSettings(Unset, cl).Some?
    ensures var s := ConfiguredSettings(Unset, cl).value;
      SelectAlgorithm(InferredHashType(s.hashType, s.hashToCheck)) == a
  {
    var s := ConfiguredSettings(Unset, cl).value;
    LowerTypeName(a);
    assert Trim(t) != [];
    TrimEmptyIffBlank(t);
    assert s.hashType == Some(Trim(t));
    NoInference(s.hashType, s.hashToCheck);
    NamedTypeSelects(Trim(t), a);
  }

  // ------------------------------------------------------------ encoding

  /** Hex output: two upper-case hex digits per byte, nothing else, and it decodes back. */
  lemma HexOutput(hash: seq<byte>, outputType: NullableString)
    requires !UseBase64(outputType)
    ensures var r := Encoded(hash, outputType);
      |r| == 2 * |hash| && (forall i :: 0 <= i < |r| ==> IsUpperHexDigit(r[i]))
      && Base16Decode(r) == Some(hash)
  {
    Base16RoundTrip(hash);
  }

  /** Base64 output: four characters per started group of three bytes, and it decodes back. */
  lemma Base64Output(hash: seq<byte>, outputType: NullableString)
    requires UseBase64(outputType)
    ensures var r := Encoded(hash, outputType);
      |r| == 4 * ((|hash| + 2) / 3) && Base64Decode(r) == Some(hash)
  {
    Base64RoundTrip(hash);
  }

  /**
   * Base64 is chosen exactly for "b64" in any letter case: the blank test in
   * front of the comparison excludes nothing more.
   */
  lemma Base64ChosenIgnoringCase(o: NullableString)
    ensures UseBase64(o) <==> o.Some? && EqualsIgnoreCase(o.value, "b64")
  {
  }

  // ------------------------------------------------------------ verdict

  /** The mismatch message carries the computed value, in quotes, after a fixed 47-character lead. */
  lemma MismatchNamesActual(actual: string)
    ensures var t := Text(HashesDiffer(actual));
      |t| == |actual| + 49 && t[47..47 + |actual|] == actual
  {
  }

  /**
   * Compute mode prints the digest and exits 0; check mode exits 0 with
   * "Hashes match." exactly when the check value equals the digest ignoring
   * case, and otherwise exits 1 naming the digest.
   */
  lemma VerdictCases(hashToCheck: NullableString, hashString: string)
    ensures var v := Verdict(hashToCheck, hashString);
      v.Exit? && (v.code == 0 || v.code == 1)
      && (IsBlank(hashToCheck) ==> v.message.HashValue? && Text(v.message) == hashString)
      && (v.code == 0 <==> IsBlank(hashToCheck) || EqualsIgnoreCase(hashToCheck.value, hashString))
      && (!IsBlank(hashToCheck) && v.code == 0 ==> Text(v.message) == "Hashes match.")
      && (v.code == 1 ==> v.message == HashesDiffer(hashString))
  {
  }

  /**
   * Base64 text is compared ignoring case too, although case carries bits in
   * base64: "ZG==", which decodes to the byte 100, matches the digest "Zg==" of
   * the byte 102.
   */
  lemma CaseBlindBase64Match()
    ensures Base64([102]) == "Zg=="
    ensures Base64Decode("ZG==") == Some([100])
    ensures Verdict(Some("ZG=="), Base64([102])) == Exit(0, HashesMatch)
  {
  }

  // ------------------------------------------------------------ whole runs

  /** A string equal ignoring case to an upper-case hex string is not blank, unless both are empty. */
  lemma HexLikeIsNotBlank(c: string, h: string)
    requires EqualsIgnoreCase(c, h) && h != [] && IsUpperHexDigit(h[0])
    ensures !IsBlank(Some(c))
  {
    if IsBlank(Some(c)) {
      assert |c| == |h|;
      assert LowerChar(c[0]) == Lower(c)[0] == Lower(h)[0] == LowerChar(h[0]);
      LowerCharKeepsWhiteSpace(c[0], h[0]);
      assert false;
    }
  }

  /**
   * The digest sizes fit the inference table: checking a file against its own
   * hex digest for algorithm `a`, in any letter case and with no type, infers
   * `a` and ends in "Hashes match." with exit code 0.
   */
  lemma OwnHexDigestMatches(cl: CommandLine, fs: FileSystem, digest: DigestFunction,
                            path: string, fullPath: string, c: string, a: Algorithm)
    requires cl.Parsed? && ConfiguredPath(cl) == Some(path)
    requires GetFullPath(fs, path) == Some(fullPath) && fullPath in fs.files
    requires IsBlank(cl.hashType) && !UseBase64(cl.output) && cl.check == Some(c)
    requires EqualsIgnoreCase(c, Base16(digest(a, fs.files[fullPath])))
    ensures Checksum(cl, fs, digest) == Exit(0, HashesMatch)
  {
    var s := ConfiguredSettings(Unset, cl).value;
    var h := Base16(digest(a, fs.files[fullPath]));
    assert |h| == 2 * DigestSize(a) == HashLength(a);
    HexLikeIsNotBlank(c, h);
    assert s.hashToCheck == Some(c) && s.hashType == cl.hashType && s.outputType == cl.output;
    InferenceFromLength(s.hashType, s.hashToCheck, a);
  }

  /** The length of the base64 rendering of an algorithm's digest. */
  function Base64DigestLength(a: Algorithm): nat {
    4 * ((DigestSize(a) + 2) / 3)
  }

  /**
   * The base64 renderings of the four digests have four different lengths,
   * none of them in the inference table.
   */
  lemma Base64LengthsOutsideTable(a: Algorithm)
    ensures forall b: Algorithm :: Base64DigestLength(a) != HashLength(b)
    ensures forall b: Algorithm :: Base64DigestLength(a) == Base64DigestLength(b) ==> a == b
  {
    assert Base64DigestLength(MD5) == 24 && Base64DigestLength(SHA1) == 28;
    assert Base64DigestLength(SHA256) == 44 && Base64DigestLength(SHA512) == 88;
  }

  /**
   * Base64 lengths are in no row of the inference table: a base64 check value
   * with no type is always checked against the MD5 digest, so the base64
   * digest of any other algorithm never matches.
   */
  lemma Base64CheckWithoutTypeUsesMD5(cl: CommandLine, fs: FileSystem, digest: DigestFunction,
                                      path: string, fullPath: string, c: string, a: Algorithm)
    requires cl.Parsed? && ConfiguredPath(cl) == Some(path)
    requires GetFullPath(fs, path) == Some(fullPath) && fullPath in fs.files
    requires IsBlank(cl.hashType) && UseBase64(cl.output) && cl.check == Some(c) && !IsBlank(cl.check)
    requires EqualsIgnoreCase(c, Base64(digest(a, fs.files[fullPath])))
    ensures var md5 := Base64(digest(MD5, fs.files[fullPath]));
      Checksum(cl, fs, digest) == if a == MD5 then Exit(0, HashesMatch) else Exit(1, HashesDiffer(md5))
  {
    var s := ConfiguredSettings(Unset, cl).value;
    var data := fs.files[fullPath];
    FromFreshConfiguration(cl);
    assert s.hashToCheck == Some(c) && s.hashType == cl.hashType && s.outputType == cl.output;
    var mine := Base64(digest(a, data));
    var md5 := Base64(digest(MD5, data));
    assert |digest(a, data)| == DigestSize(a) && |digest(MD5, data)| == DigestSize(MD5);
    assert |c| == |mine| == Base64DigestLength(a);
    assert |md5| == Base64DigestLength(MD5);
    Base64LengthsOutsideTable(a);
    Base64LengthsOutsideTable(MD5);
    OtherLengthSelectsMD5(s.hashType, s.hashToCheck);
    var hashString := Encoded(digest(MD5, data), s.outputType);
    assert hashString == md5;
    assert Checksum(cl, fs, digest) == Verdict(s.hashToCheck, md5);
    if a != MD5 {
      assert |c| != |md5|;
      assert !EqualsIgnoreCase(c, md5);
    }
  }
}
