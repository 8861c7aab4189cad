# checksum, modelled in Dafny

`checksum` is a command-line tool. It computes the MD5, SHA1, SHA256 or SHA512
digest of one file and prints it, or checks it against an expected value. This
project models the tool's whole decision pipeline, from its argument vector to
its exit code:

- **Argument resolution.** The option callbacks store `-f`, `-t`, `-c` and
  `-o`. The first positional argument stands in for a blank `-f`. A parse
  failure, `-?` or a still-blank path ends in the help text and exit -1. The
  path then loses every `'` and `"` and is trimmed; a non-blank type is trimmed.
- **Path check.** The path is resolved to a full path. A file that does not
  exist ends the run with exit 1.
- **Algorithm inference.** If a check value is given but no type, the check
  value's length (32, 40, 64 or 128) names the type.
- **Algorithm selection.** "sha1", "sha256" or "sha512", ignoring case, picks
  that algorithm. Anything else picks MD5.
- **Output encoding.** The digest is printed as upper-case hex (Base16, section 8
  of RFC 4648), or as padded base64 (section 4 of RFC 4648) when the output type
  is "b64" ignoring case.
- **Verdict.** Compute mode prints the digest and exits 0. Check mode exits 0
  with "Hashes match." exactly when the check value equals the digest ignoring
  case. Otherwise it exits 1 and names the digest.

The model has five modules:

- `Wrappers` (`wrappers.dfy`): `Option`, which models a .NET `null`.
- `ClrString` (`clr_string.dfy`): the .NET string operations the tool uses.
  These are `string.IsNullOrWhiteSpace`, `Trim`, `Replace(c, "")`, `ToLower`
  and the case-insensitive comparison.
- `Encoding` (`encoding.dfy`): the two renderings of a digest.
  `BitConverter.ToString` with its dashes removed is proved to be Base16;
  `Convert.ToBase64String` is modelled directly. Each rendering has a decoder,
  and a round-trip lemma proves that it loses nothing.
- `Program` (`program.dfy`): the tool itself.
  - `ConfigurationSettings` is a class whose four fields the methods update in
    place, as the source does.
  - `ParseArguments`, `InferHashType`, `ChooseHashProvider`, `Report`,
    `Execute` and `Run` follow `parse_arguments_and_set_up_configuration` and
    `Main` statement by statement.
  - Beside them, pure functions (`ConfiguredSettings`, `InferredHashType`,
    `SelectAlgorithm`, `Encoded`, `Verdict`, `Checksum`) describe the same
    pipeline as values.
  - `Run` is proved to return exactly `Checksum`.
- `ProgramProperties` (`program_properties.dfy`): what the tool promises,
  proved about `Checksum` and its parts.

The environment is passed in as parameters:

- The option parser's result is a `CommandLine` value: the extracted option
  values, the positional arguments, or `Unparsable` for an `OptionException`.
- The file system is a `FileSystem` value. Its `resolve` function gives a full
  path, or `None` where `Path.GetFullPath` throws. `Path.GetFullPath("")`
  always throws. Its `files` map holds the contents of the files that exist.
- The hash providers are a `DigestFunction`: any function whose output has 16,
  20, 32 or 64 bytes for MD5, SHA1, SHA256 or SHA512.
- A run ends in an `Outcome`: either `Exit(code, message)`, or `Unhandled` for
  an exception the program does not catch.

Three behaviours of the code are worth knowing:

- **Quotes are removed everywhere**, not only at the ends of the path
  (`Program.cs:171`; `CleanPathKeepsOthers`).
- **A quotes-only path crashes instead of showing help.** A path made only of
  `'` and `"` passes the blank test at `Program.cs:168`. It cleans to "" at
  `:171`, and `Path.GetFullPath` throws on it at `:36`. Nothing catches that
  exception (`QuotesOnlyPathIsUnhandled`).
- **Base64 check values are compared ignoring case**, although letter case
  carries bits in base64. At `Program.cs:100` the check value "ZG==", which
  decodes to the byte 100, matches the digest "Zg==" of the byte 102
  (`CaseBlindBase64Match`).

## Model

| member | source | states |
|---|---|---|
| ClrString.IsWhiteSpace | src/checksum/Program.cs:43 | `char.IsWhiteSpace` holds of U+0009..U+000D, space, U+0085, U+00A0, U+1680, U+2000..U+200A, U+2028, U+2029, U+202F, U+205F and U+3000, and of nothing else: the Unicode categories Zs, Zl and Zp plus those control characters. No digit or ASCII letter is white space. |
| ClrString.IsBlank | src/checksum/Program.cs:43 | `string.IsNullOrWhiteSpace` (used at :43, :85, :93, :157, :168 and :172): null, the empty string and all-white-space strings are blank; a string whose first character is not white space is not. |
| ClrString.Trim | src/checksum/Program.cs:171-175 | The result is the infix of the input that starts where the leading white space ends; everything cut off before and after it is white space; and it neither starts nor ends with white space. |
| ClrString.TrimKeepsNonWhiteSpace | src/checksum/Program.cs:171 | Trimming keeps every character that is not white space, and adds none. |
| ClrString.TrimEmptyIffBlank | src/checksum/Program.cs:172-175 | A string trims to the empty string exactly when `IsNullOrWhiteSpace` holds of it. So a type that passes the blank test is still non-blank after trimming. |
| ClrString.TrimIdempotent | src/checksum/Program.cs:172-175 | Trimming a trimmed type changes nothing. |
| ClrString.Remove | src/checksum/Program.cs:171 | `Replace(c, "")` leaves no `c` and never lengthens the string. |
| ClrString.RemoveKeepsOthers | src/checksum/Program.cs:171 | Removing `c` keeps every other character: any `d != c` occurs in the result exactly when it occurs in the input. |
| ClrString.RemoveConcat | src/checksum/Program.cs:86 | Removal distributes over concatenation, so the order of the remaining characters is kept. |
| ClrString.RemoveAbsent | src/checksum/Program.cs:86 | Removing a character that does not occur returns the string unchanged. |
| ClrString.Lower | src/checksum/Program.cs:66-77 | Lower-casing keeps the length and maps each character through the ASCII lower-case mapping. |
| ClrString.EqualsIgnoreCase | src/checksum/Program.cs:100 | Two strings compare equal ignoring case exactly when they have the same length and agree position by position once each character is lower-cased. |
| Encoding.ByteHex | src/checksum/Program.cs:86 | Each byte becomes two upper-case hex digits whose values give the byte back. |
| Encoding.BitConverterString | src/checksum/Program.cs:86 | `BitConverter.ToString` writes 3n−1 characters for n > 0 bytes and none for none; `BitConverterLayout` says where they go. |
| Encoding.BitConverterLayout | src/checksum/Program.cs:86 | In `BitConverter.ToString`, byte i's two upper-case hex digits sit at positions 3i and 3i+1, and a dash follows at 3i+2 for every byte but the last. |
| Encoding.Base16 | src/checksum/Program.cs:86 | The hex text has exactly two characters per byte, all from 0-9A-F. |
| Encoding.DashFreeBitConverterIsBase16 | src/checksum/Program.cs:86 | `BitConverter.ToString(hash).Replace("-", "")` equals the Base16 encoding of the hash, for every byte sequence. |
| Encoding.Base16RoundTrip | src/checksum/Program.cs:86 | Decoding the hex text of any bytes returns those bytes. |
| Encoding.Base64 | src/checksum/Program.cs:88 | The base64 text has 4·⌈n/3⌉ characters for n bytes. |
| Encoding.Base64RoundTrip | src/checksum/Program.cs:88 | Decoding the padded base64 text of any bytes returns those bytes. |
| Program.GetFullPath | src/checksum/Program.cs:36 | `Path.GetFullPath` of the empty path always throws. |
| Program.Text | src/checksum/Program.cs:39 | Compute mode prints the digest alone; the missing-file line has the full path, quoted, after a 6-character lead, with 22 characters of fixed text in all (lines 39, 95, 104, 109). |
| Program.ConfigurationSettings.constructor | src/checksum/Program.cs:27 | A fresh configuration has all four settings null. |
| Program.CleanPath | src/checksum/Program.cs:171 | The cleaned path contains no `'` and no `"`, and neither starts nor ends with white space. |
| Program.TrimmedType | src/checksum/Program.cs:172-175 | A blank or null type is kept as it is. Any other type is replaced by its trimmed form, which is still not blank. |
| Program.WithPositional | src/checksum/Program.cs:155-160 | The first positional argument replaces the path exactly when the path is blank and there is such an argument; otherwise the path is kept. |
| Program.ConfiguredSettings | src/checksum/Program.cs:130-176 | Whenever parsing does not end in help, the settings hold a path. |
| Program.InferredHashType | src/checksum/Program.cs:43-60 | The type changes only when it is blank and the check value is not, and then only to the name of an algorithm whose table length is the check value's length. |
| Program.ToLowerSafe | src/checksum/Program.cs:66-74 | Null stays null; a string keeps its length, is equal to the original ignoring case and is already lower case, so it is the original lower-cased. |
| Program.SelectAlgorithm | src/checksum/Program.cs:64-77 | The choice is total. A non-MD5 algorithm is chosen only when the lower-cased type is that algorithm's name, and every such name gets its own algorithm. |
| Program.UseBase64 | src/checksum/Program.cs:85 | Base64 is chosen only by a non-null three-character output type; `Base64ChosenIgnoringCase` gives the exact condition. |
| Program.Encoded | src/checksum/Program.cs:84-88 | Unless the output type is "b64" ignoring case, the printed digest is its Base16 text. |
| Program.Verdict | src/checksum/Program.cs:93-113 | The run ends normally, with exit code 0 or 1. |
| Program.Resolved | src/checksum/Program.cs:36-113 | After parsing, the run ends in an unhandled exception exactly when `Path.GetFullPath` throws; otherwise it exits with 0 or 1. |
| Program.Checksum | src/checksum/Program.cs:25-114 | A whole run ends in help with exit -1 exactly when parsing gives no settings; every exit code is -1, 0 or 1. |
| Program.StoreOptions | src/checksum/Program.cs:134-150 | Each option that was given overwrites its configuration field; the others are left as they were. |
| Program.ParseArguments | src/checksum/Program.cs:130-176 | Help is shown exactly when `ConfiguredSettings` gives none. Otherwise the configuration holds exactly the resolved, cleaned settings. |
| Program.InferHashType | src/checksum/Program.cs:43-61 | Only the type field changes, and it becomes `InferredHashType` of the old type and the check value. |
| Program.ChooseHashProvider | src/checksum/Program.cs:64-77 | The provider chosen by the if-chain is `SelectAlgorithm` of the type. |
| Program.Report | src/checksum/Program.cs:93-113 | The printed message and exit code are `Verdict` of the check value and the encoded digest. |
| Program.Execute | src/checksum/Program.cs:36-113 | From the parsed settings on, the run ends as `Resolved` says: unhandled on an unresolvable path, exit 1 for a missing file, otherwise the verdict on the encoded digest of the inferred and selected algorithm. |
| Program.Run | src/checksum/Program.cs:25-114 | `Main`, from argument parsing to exit, ends exactly as the pure description `Checksum` of the same inputs. |
| ProgramProperties.FromFreshConfiguration | src/checksum/Program.cs:152-175 | From a fresh configuration, parsing gives help exactly on a help flag or a blank resolved path. Otherwise it gives the cleaned path, the trimmed type, and the check and output values as given. |
| ProgramProperties.HelpConditions | src/checksum/Program.cs:152-168 | Help (exit -1) ends the run exactly on a parse failure, a help flag or a path still blank after the positional fallback. It does so before any file check or hashing, whatever the file system and digests. |
| ProgramProperties.NoPathShowsHelp | src/checksum/Program.cs:168 | With neither `-f` nor a positional argument, the run ends in help with exit -1. |
| ProgramProperties.ExplicitFileWins | src/checksum/Program.cs:155-160 | A non-blank `-f` is the path, whatever positional arguments follow. |
| ProgramProperties.PositionalFallback | src/checksum/Program.cs:155-160 | A blank `-f` gives way to the first positional argument, which becomes the path after cleaning. |
| ProgramProperties.CleanPathKeepsOthers | src/checksum/Program.cs:171 | Quotes are removed wherever they occur. Every other non-white-space character occurs in the cleaned path exactly when it occurs in the given one. |
| ProgramProperties.QuotesOnlyCleansToEmpty | src/checksum/Program.cs:171 | A path made only of `'` and `"` cleans to the empty string. |
| ProgramProperties.QuotesOnlyPathIsUnhandled | src/checksum/Program.cs:36 | A non-empty quotes-only `-f` passes the blank test. It reaches `Path.GetFullPath` as "", and the run ends in an unhandled exception rather than in help. |
| ProgramProperties.MissingFileExitsOne | src/checksum/Program.cs:36-41 | A resolved path that is not an existing file ends the run with exit 1 and names the full path. This happens before inference or hashing, whatever the digests. |
| ProgramProperties.LowerTypeName | src/checksum/Program.cs:20-23 | The type-name constants are already lower case. |
| ProgramProperties.InferenceFromLength | src/checksum/Program.cs:12-18 | With a non-blank check value and a blank type, a check value of length 32/40/64/128 sets the type to md5/sha1/sha256/sha512. That type then selects the matching algorithm. |
| ProgramProperties.NoInference | src/checksum/Program.cs:43 | A non-blank type is never overwritten. A blank check value never triggers inference, and neither does a length outside the table. |
| ProgramProperties.BlankTypeSelectsMD5 | src/checksum/Program.cs:64-77 | A null or blank type selects MD5. |
| ProgramProperties.OtherLengthSelectsMD5 | src/checksum/Program.cs:43-77 | With no type, a check value of any length outside the table leads to MD5. |
| ProgramProperties.NamedTypeSelects | src/checksum/Program.cs:66-77 | A type equal to an algorithm's name, in any letter case, selects that algorithm. |
| ProgramProperties.ExplicitTypeSelects | src/checksum/Program.cs:172-175 | An explicit `-t` that names an algorithm once trimmed, ignoring case, selects that algorithm, whatever the check value. |
| ProgramProperties.HexOutput | src/checksum/Program.cs:85-86 | Unless "b64" is chosen, the output is 2·n characters from 0-9A-F with no separators, and it decodes back to the digest. |
| ProgramProperties.Base64ChosenIgnoringCase | src/checksum/Program.cs:85 | Base64 output is chosen exactly when the output type is non-null and equals "b64" ignoring case; the blank test in front of the comparison excludes nothing more. |
| ProgramProperties.Base64Output | src/checksum/Program.cs:85-88 | With "b64" chosen, the output has 4·⌈n/3⌉ characters and decodes back to the digest. |
| ProgramProperties.MismatchNamesActual | src/checksum/Program.cs:104 | The mismatch line contains the computed digest, in quotes, after a fixed 47-character lead. |
| ProgramProperties.CaseBlindBase64Match | src/checksum/Program.cs:85-100 | The check value "ZG==", which decodes to the byte 100, matches the base64 digest "Zg==" of the byte 102 with exit 0, because the comparison ignores case. |
| ProgramProperties.VerdictCases | src/checksum/Program.cs:93-113 | Compute mode prints exactly the digest with exit 0. In check mode, exit 0 happens exactly when the check value equals the digest ignoring case, with "Hashes match." Otherwise the exit is 1 and the message names the digest. |
| ProgramProperties.HexLikeIsNotBlank | src/checksum/Program.cs:43 | A value equal, ignoring case, to a non-empty hex text is not blank. |
| ProgramProperties.OwnHexDigestMatches | src/checksum/Program.cs:43-113 | Checking a file against its own hex digest for algorithm A, in any letter case and with no type, infers A. It ends in "Hashes match." with exit 0. |
| ProgramProperties.Base64LengthsOutsideTable | src/checksum/Program.cs:12-18 | The base64 digest lengths (24, 28, 44, 88) are all different and none is in the inference table. |
| ProgramProperties.Base64CheckWithoutTypeUsesMD5 | src/checksum/Program.cs:43-113 | A base64 check value with no `-t` is always compared against the MD5 digest. It matches if it is the MD5 digest; the base64 digest of any other algorithm ends in exit 1. |

## Left out

- The digest computations of the MD5, SHA1, SHA256 and SHA512 providers are
  library code. A `DigestFunction` fixes only the length of their output.
- The file system is I/O.
  - `Path.GetFullPath` is an arbitrary `resolve` function plus its throw on the
    empty path. `File.Exists` is membership in the `files` map.
  - The race between the existence check and `File.Open`, the `FileShare`
    mode, and read errors during hashing (an unhandled exception in the tool)
    are not modelled.
- Option tokenisation is not part of this model: the `OptionSet` class of
  `checksum.infrastructure.commandline`. `CommandLine` is its result, with one
  value per option, which is the last one given on the command line.
- Console output is I/O. The help text itself, the DEBUG-only prints and the
  DEBUG-only keypress pause are not modelled. Only which message is chosen and
  the exit code are kept.
- The exit code a .NET process reports for an unhandled exception is not
  modelled; `Unhandled` stands for it.
- ClrString.Lower: lower-cases the ASCII letters only, because the culture
  rules of `ToLower` are out of scope. This is exact for the hex and base64
  alphabets and for the type names.
- ClrString.EqualsIgnoreCase: the comparison is equality of the
  ASCII lower-cased strings, not the culture-sensitive invariant-culture
  comparison. The two agree when both strings are over the hex and base64
  alphabets.
  - The invariant culture ignores some characters, such as NUL and
    U+0001..U+0008. A check value carrying them can compare equal to a digest
    in the source, and to one of a different length, but not in the model.
  - Program.Report, Program.Verdict and ProgramProperties.VerdictCases inherit this.
- Program.ToLowerSafe, Program.SelectAlgorithm: `ToLowerSafe` is an extension
  method defined outside `Program.cs`, and its source is not part of this
  model. The model takes it to lower-case a string and to pass `null` through,
  so a null type never names an algorithm.
- ProgramProperties.InferenceFromLength, Program.InferredHashType,
  Program.InferHashType: string lengths count Unicode scalar values, where .NET
  counts UTF-16 code units. They differ only for characters outside the Basic
  Multilingual Plane.
