# Redumper execution context, modelled in Dafny

MPF drives the redumper disc-dumping tool through an *execution context*. The
context holds the parameter string of one redumper run in a typed form:

- the base command, which is always the empty placeholder for redumper;
- the list of modes (`cd`, `dvd`, `dump`, ...);
- a presence map from flag spelling to `true`;
- one typed value for every flag that carries one (`--drive`, `--speed`,
  `--skip-fill`, ...).

The context can be filled in three ways:

- by parsing a parameter string (`ValidateAndSetParameters`);
- by applying defaults for a disc and the user's settings (`SetDefaultParameters`);
- by being cleared (`ResetValues`).

It writes itself back out as a parameter string (`GenerateParameters`).
Beside it sit the typed flag inputs used by other tools' contexts: a boolean
flag, unsigned 32-bit and signed 8-bit numeric flags, and a fixed-size array of
32-bit integers.

The project has these modules:

- `FlagStrings`: the 40 flag spellings, in declaration order.
- `Redumper`: the context, as class `ExecutionContext`. The flag readers and the
  parsing regions are module-level methods over values. Each region is proved
  equal to `Pass`, the run of its readers' effects in source order, over a
  table saying which reader each flag uses. The flag loop is proved equal to
  `Sweep`, one pass per token from the token after the one the previous pass
  stopped on. `Sweep` is in turn proved to be the fold of `TokenEffect`, an
  independent statement of each token's effect.
- `Data`: the four typed inputs. Each is a class with a `Value` field that
  `Process` updates. The array input's slot loop works in place on an `array`.
- `Numeric`: C#'s fixed-width integer types, `TryParse` in decimal and hex,
  unchecked narrowing casts, and the decimal and `:x` renderings.
- `Strings`: trimming, quoting, joining and prefix tests.
- `Tokenizer`: the split of a parameter string into tokens.
- `CommandStrings`, `Settings`, `Paths`: the mode words, the settings lookups and
  two path functions the context calls.
- `Wrappers`: `Option`.

C#'s nullable values are `Option`. `int`, `byte`, `uint` and `sbyte` are newtypes
over their exact ranges. Every unchecked cast is written out as `Truncate`.

The context's twenty `...Value` properties are grouped into one record field,
`values: Values`. Each record component stands for the property of the same name:
`values.drive` is `DriveValue`, `values.skipFill` is `SkipFillValue`, and so on.
An operation that sets some properties replaces the record with an updated
copy, which leaves the other components as they were.

## Model

| member | source | states |
|---|---|---|
| FlagStrings.PositionOfAll | MPF.ExecutionContexts/Redumper/FlagStrings.cs:9-58 | Each of the 40 spellings is found again at its own declaration position, so no spelling is ambiguous |
| FlagStrings.AllDistinct | MPF.ExecutionContexts/Redumper/FlagStrings.cs:9-58 | There are 40 constants and they are pairwise different, so each has its own presence-map entry |
| FlagStrings.AllStartWithDash | MPF.ExecutionContexts/Redumper/FlagStrings.cs:9-58 | Every spelling starts with `-` and has at least two characters |
| FlagStrings.AllButHelpShortAreLong | MPF.ExecutionContexts/Redumper/FlagStrings.cs:9-58 | Every spelling except `-h` starts with `--` |
| FlagStrings.BareHaveNoEquals | MPF.ExecutionContexts/Redumper/FlagStrings.cs:9-58 | No spelling of a valueless flag contains `=`, so a `flag=value` token can never be taken for one |
| FlagStrings.HelpShortNeverGenerated | MPF.ExecutionContexts/Redumper/ExecutionContext.cs:249-492 | The generation blocks cover `--help` but never `-h` |
| FlagStrings.GeneratedAreLong | MPF.ExecutionContexts/Redumper/ExecutionContext.cs:249-492 | Every flag that generation writes is spelled with `--` |
| FlagStrings.AllButHelpShortGenerated | MPF.ExecutionContexts/Redumper/ExecutionContext.cs:249-492 | Every constant except `-h` has a generation block |
| FlagStrings.AutoEjectIsGenerated | MPF.ExecutionContexts/Redumper/ExecutionContext.cs:263-265 | `--auto-eject` has a generation block |
| Strings.TrimQuoteWrapped | MPF.ExecutionContexts/Redumper/ExecutionContext.cs:18 | `Trim('"')` on a text wrapped in one pair of quotes, whose ends are not quotes, gives back the text |
| Strings.QuoteTrimmed | MPF.ExecutionContexts/Redumper/ExecutionContext.cs:759-766 | Re-quoting a path after `Trim('"')` yields exactly one pair of quotes, and trimming it again is stable |
| Strings.TrimCharIdempotent | MPF.ExecutionContexts/Redumper/ExecutionContext.cs:761 | Trimming quotes a second time changes nothing |
| Strings.AssignmentSplitsOnce | MPF.ExecutionContexts/Redumper/ExecutionContext.cs:744 | `x=t` and `y=u` with no `=` in the names or values are the same token only when x is y and t is u |
| Numeric.Truncate | MPF.ExecutionContexts/Data/UInt32Input.cs:65 | The unchecked cast `(uint)(value * factor)`: a value in the type's range, congruent to the input modulo 2^bits, and equal to it when it already fits |
| Numeric.TryParseHex | MPF.ExecutionContexts/Data/UInt32Input.cs:71 | The `AllowHexSpecifier` parse succeeds exactly on a non-empty string of hex digits whose value fits the type's bit width. The result is that value read in two's complement: congruent to it modulo 2^bits, and equal to it for an unsigned type |
| Numeric.ExtractFactorFromValue | MPF.ExecutionContexts/Data/UInt32Input.cs:61 | The text with surrounding quotes trimmed; when it ends in a unit suffix, the text without the suffix and the suffix's factor, otherwise the text and factor 1 |
| Numeric.UnitFactor | MPF.ExecutionContexts/Data/UInt32Input.cs:61 | A unit suffix's factor is at most 2^30, and no digit, quote or minus sign is a unit |
| Numeric.RemoveHexIdentifier | MPF.ExecutionContexts/Data/UInt32Input.cs:70 | Either the text unchanged or the text without its first two characters |
| Numeric.ParseStaged | MPF.ExecutionContexts/Data/UInt32Input.cs:53-76 | The three parse stages: the plain decimal parse when it succeeds; else the suffix-stripped text read in decimal, else in hex after `0x`, multiplied by the unit factor and cast with `Truncate`; none when all three fail |
| Numeric.ParseDecimal | MPF.ExecutionContexts/Data/UInt32Input.cs:53 | The decimal parse succeeds exactly on an optional `+` or `-` followed by at least one ASCII digit, and a negative result comes only from a leading `-` |
| Numeric.TryParse | MPF.ExecutionContexts/Data/UInt32Input.cs:53 | `TryParse` for a type succeeds exactly when the decimal parse does and its value lies in the type's range, and then gives that value |
| Numeric.SuffixedDecimalParses | MPF.ExecutionContexts/Data/UInt32Input.cs:53-76 | A number in range followed by a unit suffix (so `4k`) parses as the number times the unit's factor, cast to the type |
| Numeric.DecimalString | MPF.ExecutionContexts/Redumper/ExecutionContext.cs:287 | `ToString()` of an integer is non-empty and holds no space, quote or `=` |
| Numeric.DecimalRoundTrip | MPF.ExecutionContexts/Redumper/ExecutionContext.cs:749 | An integer written in decimal parses back as the same integer |
| Numeric.StagedRoundTrip | MPF.ExecutionContexts/Data/Int32ArrInput.cs:133-161 | Every value of a type, written in decimal, survives the staged parse |
| Numeric.LowerHex | MPF.ExecutionContexts/Redumper/ExecutionContext.cs:426 | The `:x` format gives non-empty lowercase hex digits |
| Numeric.LowerHexRoundTrip | MPF.ExecutionContexts/Redumper/ExecutionContext.cs:426 | The `:x` rendering reads back in base 16 as the same number |
| Numeric.TryParseBool | MPF.ExecutionContexts/Data/BooleanInput.cs:51 | `bool.TryParse`: the text, with white space and NUL trimmed from both ends, lower-cased, is `true` exactly for true and `false` exactly for false; any other text fails |
| Numeric.LowerAscii | MPF.ExecutionContexts/Data/BooleanInput.cs:51 | Lower-casing keeps the length and maps each ASCII capital to its small letter, leaving other characters alone |
| Numeric.BoolLiteralParses | MPF.ExecutionContexts/Data/BooleanInput.cs:51 | `true` or `false`, in any mix of cases, with white space or NUL on either side, parses as that literal |
| Numeric.BoolStringRoundTrip | MPF.ExecutionContexts/Data/BooleanInput.cs:51 | `bool.ToString()`'s `True` and `False` parse back as the same value |
| Tokenizer.MatchesShape | MPF.ExecutionContexts/Redumper/ExecutionContext.cs:659-664 | No token is empty or starts with a space; a token holding a space is a quoted span ending in a quote |
| Tokenizer.Matches | MPF.ExecutionContexts/Redumper/ExecutionContext.cs:661 | At most one match per character; no match at all exactly when the text is only spaces |
| Tokenizer.Tokenize | MPF.ExecutionContexts/Redumper/ExecutionContext.cs:659-664 | No tokens exactly when the text trims to nothing |
| Tokenizer.BlankTokenizesToNothing | MPF.ExecutionContexts/Redumper/ExecutionContext.cs:659-664 | Text made only of `char.IsWhiteSpace` characters, including U+00A0, U+2000 to U+200A and U+3000, splits into no tokens at all |
| Tokenizer.PlainWordThen | MPF.ExecutionContexts/Redumper/ExecutionContext.cs:661 | A plain word followed by a space is one token, and matching resumes after the space |
| Tokenizer.JoinedWordsRoundTrip | MPF.ExecutionContexts/Redumper/ExecutionContext.cs:661 | Words joined by single spaces split back into the same words when none holds a space or a quote |
| Settings.GetBooleanSetting | MPF.ExecutionContexts/Redumper/ExecutionContext.cs:595 | A missing key gives the default; a key holding a boolean literal gives that literal |
| Settings.GetInt32Setting | MPF.ExecutionContexts/Redumper/ExecutionContext.cs:640 | A missing key gives the default; a key holding a 32-bit number gives that number |
| Settings.GetStringSetting | MPF.ExecutionContexts/Redumper/ExecutionContext.cs:600 | A missing key gives the default; a present key gives its text, which may be null |
| Paths.LastSeparator | MPF.ExecutionContexts/Redumper/ExecutionContext.cs:624 | The position of the last `/` or `\`: a separator with none after it, or none at all |
| Paths.GetDirectoryName | MPF.ExecutionContexts/Redumper/ExecutionContext.cs:624 | Shorter than the path or empty; empty when the path has no separator |
| Paths.GetFileNameWithoutExtension | MPF.ExecutionContexts/Redumper/ExecutionContext.cs:631 | The base name holds no separator |
| Data.NameMismatch | MPF.ExecutionContexts/Data/BooleanInput.cs:40 | The loose name test: a token is rejected only when it differs from the name and a long name exists that it also differs from |
| Data.DoesExist | MPF.ExecutionContexts/Data/BooleanInput.cs:44 | A position that exists lies inside the tokens and holds a non-empty token |
| Data.BooleanInput.constructor | MPF.ExecutionContexts/Data/BooleanInput.cs:23-24 | Name, long name and required flag as given, no value |
| Data.BooleanInput.Process | MPF.ExecutionContexts/Data/BooleanInput.cs:29-59 | Out of range or wrong name: false, nothing changes. No literal after the flag: value true (null when required), cursor stays, `!required`. A literal: cursor advances by one, result is the literal, value unchanged |
| Data.UInt32Input.constructor | MPF.ExecutionContexts/Data/UInt32Input.cs:25-26 | Name, long name and required flag as given, no value |
| Data.UInt32Input.Process | MPF.ExecutionContexts/Data/UInt32Input.cs:31-81 | Out of range or wrong name: false, nothing changes. A value the staged parse reads: stored, cursor advances, true. Otherwise 0 (null when required), cursor stays, `!required` |
| Data.Int8Input.constructor | MPF.ExecutionContexts/Data/Int8Input.cs:25-26 | Name, long name and required flag as given, no value |
| Data.Int8Input.Process | MPF.ExecutionContexts/Data/Int8Input.cs:31-81 | As for the unsigned input, at signed 8-bit width and with -128 in place of 0 |
| Data.ParseValue | MPF.ExecutionContexts/Data/Int32ArrInput.cs:133-161 | Succeeds exactly when the staged 32-bit parse does, with the same value |
| Data.ParsedRun | MPF.ExecutionContexts/Data/Int32ArrInput.cs:102-122 | The number of slots filled: at most the size, every counted result is a value, and the run stops only at the size, at the end of the tokens, or at a token that does not parse |
| Data.Rendered | MPF.ExecutionContexts/Data/Int32ArrInput.cs:82-84 | The non-null elements as non-empty decimal words without spaces or quotes |
| Data.RenderedParsesBack | MPF.ExecutionContexts/Data/Int32ArrInput.cs:82-84 | Each rendered element parses back, through `ParseValue`, to the element it came from |
| Data.FormatRoundTrip | MPF.ExecutionContexts/Data/Int32ArrInput.cs:60-88 | Formatting with a space separator and splitting again gives the name, then one token per non-null element, each parsing back to that element |
| Data.FormatValues | MPF.ExecutionContexts/Data/Int32ArrInput.cs:69-85 | The name, then `=` or a space as asked; nothing follows exactly when no element is present, and what follows splits into one token per present element |
| Data.FormatReadsBack | MPF.ExecutionContexts/Data/Int32ArrInput.cs:60-88 | With either separator, the tokens after the separator parse back, in order, to the non-null elements; with none present the text is the name and the separator |
| Data.Int32ArrInput.Format | MPF.ExecutionContexts/Data/Int32ArrInput.cs:60-88 | Nothing when there is no array; otherwise the name followed by `=` or a space as asked, with nothing after it exactly when no element is non-null, and one token per non-null element after it |
| Data.FillSlots | MPF.ExecutionContexts/Data/Int32ArrInput.cs:101-124 | The slot loop fills the parsed run and nothing more. If it stops early it writes `int.MinValue` (null when required) at the stopping slot, returns `!required` and leaves the later slots null. A full run returns true |
| Data.Int32ArrInput.constructor | MPF.ExecutionContexts/Data/Int32ArrInput.cs:54-55 | Names, required flag and size as given, no array |
| Data.Int32ArrInput.Process | MPF.ExecutionContexts/Data/Int32ArrInput.cs:91-128 | Wrong position or name: false, nothing changes. Otherwise a fresh array of `Size` slots, holding the parsed run; the cursor moves past the run |
| Redumper.AutoEjectOneWay | MPF.ExecutionContexts/Redumper/ExecutionContext.cs:722-909 | A presence map that only parsing touched holds `--auto-eject` exactly as before |
| Redumper.AssignedValue | MPF.ExecutionContexts/Redumper/ExecutionContext.cs:744 | The text after `flag=` in a `flag=value` token; none when a further `=` follows |
| Redumper.Assignment | MPF.ExecutionContexts/Redumper/ExecutionContext.cs:744 | A token read as `flag=t` is exactly the flag, `=` and t, with no further `=` |
| Redumper.AssignmentOfSpelled | MPF.ExecutionContexts/Redumper/ExecutionContext.cs:744 | Conversely, `flag=t` with no `=` in t is read as the flag with value t |
| Redumper.AssignmentNamesOneFlag | MPF.ExecutionContexts/Redumper/ExecutionContext.cs:744 | With no `=` in the spellings, a token is the `flag=value` form of at most one flag |
| Redumper.ParsedInt32 | MPF.ExecutionContexts/Redumper/ExecutionContext.cs:749 | The number a value token spells when the 32-bit parse succeeds, `int.MinValue` when it fails |
| Redumper.ParsedUInt8 | MPF.ExecutionContexts/Redumper/ExecutionContext.cs:854 | The number a value token spells when the byte parse succeeds, 0 when it fails |
| Redumper.ProcessFlagParameter | MPF.ExecutionContexts/Redumper/ExecutionContext.cs:732 | A valueless flag is marked exactly when the token is its long or short spelling |
| Redumper.ProcessStringParameter | MPF.ExecutionContexts/Redumper/ExecutionContext.cs:744 | Reads `flag value` or `flag=value`. The flag is marked exactly when a value is read, and only by its own token. The cursor moves only onto a separate value token, whose text is returned with its quotes trimmed |
| Redumper.ProcessInt32Parameter | MPF.ExecutionContexts/Redumper/ExecutionContext.cs:749 | Reads a 32-bit value as `flag value` or `flag=value`. The cursor stays or moves by one within the tokens, and only the flag's own token marks it. Moving onto a separate token means that token parsed as a 32-bit integer and is the value read |
| Redumper.ProcessUInt8Parameter | MPF.ExecutionContexts/Redumper/ExecutionContext.cs:854 | As the 32-bit reader, for a byte: moving onto a separate token means it parsed as a byte and is the value read |
| Redumper.Mark | MPF.ExecutionContexts/Redumper/ExecutionContext.cs:732 | `this[flag] = true` when the reader says so, every other entry as it was, within the sweep's keys |
| Redumper.KeepInt | MPF.ExecutionContexts/Redumper/ExecutionContext.cs:750-751 | An integer read is stored unless it is missing or `int.MinValue`; in those cases the old value stays |
| Redumper.KeepText | MPF.ExecutionContexts/Redumper/ExecutionContext.cs:745-746 | A text read is stored unless it is missing or empty; in those cases the old text stays |
| Redumper.KeepQuoted | MPF.ExecutionContexts/Redumper/ExecutionContext.cs:760-761 | A path read is stored with its quotes trimmed and re-wrapped in exactly one pair; a missing or empty read keeps the old path |
| Redumper.KeepFill | MPF.ExecutionContexts/Redumper/ExecutionContext.cs:855-856 | A byte read is stored unless it is missing or 0; in those cases the old byte stays |
| Redumper.StoreKeeps | MPF.ExecutionContexts/Redumper/ExecutionContext.cs:744-905 | A stored value moves the fields only as parsing allows: no sentinel, no empty text, a path in one pair of quotes |
| Redumper.StoreTwice | MPF.ExecutionContexts/Redumper/ExecutionContext.cs:744-905 | Reading the same value twice for the same flag stores it once |
| Redumper.TableLawful | MPF.ExecutionContexts/Redumper/ExecutionContext.cs:729-905 | The stores of parsing's reader table behave as the blocks' guards do for every flag with a value: storing the same value twice stores it once, and a store moves the fields only as parsing allows |
| Redumper.ReadSwitch | MPF.ExecutionContexts/Redumper/ExecutionContext.cs:731-741 | A valueless flag's block (`ProcessFlagParameter`) is exactly `ReaderEffect`: its spelling, or `-h` for `--help`, marks it; any other token changes nothing |
| Redumper.ReadText | MPF.ExecutionContexts/Redumper/ExecutionContext.cs:743-746 | A text flag's block is exactly `ReaderEffect`: `flag=t` or `flag t` marks the flag and stores t unless empty; the cursor moves only onto a separate value |
| Redumper.ReadInt32 | MPF.ExecutionContexts/Redumper/ExecutionContext.cs:748-751 | A 32-bit flag's block is exactly `ReaderEffect`: `flag=t` stores the number t spells unless `int.MinValue`; `flag t` moves onto t only when t parses |
| Redumper.ReadPath | MPF.ExecutionContexts/Redumper/ExecutionContext.cs:758-766 | A path flag's block is exactly `ReaderEffect`: as for text, the value stored in one pair of quotes |
| Redumper.ReadFill | MPF.ExecutionContexts/Redumper/ExecutionContext.cs:853-856 | The skip-fill block is exactly `ReaderEffect`: as for 32-bit flags, with a byte and 0 in place of `int.MinValue` |
| Redumper.PassSnoc | MPF.ExecutionContexts/Redumper/ExecutionContext.cs:729-905 | A run of readers one longer is the run followed by the last reader, on the cursor the run left |
| Redumper.PassAppend | MPF.ExecutionContexts/Redumper/ExecutionContext.cs:729-905 | A run split in two: the second part starts where the first left the cursor |
| Redumper.ValuedReaderReads | MPF.ExecutionContexts/Redumper/ExecutionContext.cs:743-766 | The reader of a flag with a value does what `Reads` says of that flag alone: in place, separate value, bare token, and nothing outside its frame |
| Redumper.SwitchReaderReads | MPF.ExecutionContexts/Redumper/ExecutionContext.cs:731-741 | The reader of a valueless flag does what `Reads` says of that flag alone |
| Redumper.ReaderReads | MPF.ExecutionContexts/Redumper/ExecutionContext.cs:729-905 | Any one reader does what `Reads` says of a run of its own flag |
| Redumper.ReadsThen | MPF.ExecutionContexts/Redumper/ExecutionContext.cs:729-905 | Two runs in a row, the second started on the cursor the first left, act as one run over the flags of both; a flag read by both is read once |
| Redumper.PassReads | MPF.ExecutionContexts/Redumper/ExecutionContext.cs:729-905 | Any run of readers does what `Reads` says of the run: `flag=t` for one of its flags marks and stores t; `flag value` marks, stores and moves onto the value; a bare spelling marks its flag; nothing else is marked or stored |
| Redumper.ReadersCover | MPF.ExecutionContexts/Redumper/ExecutionContext.cs:729-905 | The readers cover exactly the parsed flags: every flag with a value and every valueless flag parsing marks |
| Redumper.TokenReads | MPF.ExecutionContexts/Redumper/ExecutionContext.cs:729-905 | A whole pass does what `Reads` says of all parsed flags |
| Redumper.TokenEffect | MPF.ExecutionContexts/Redumper/ExecutionContext.cs:729-905 | A pass's effect on one token under a reader table, stated on its own: the cursor stays or moves one onward within the tokens, and moves only from the spelling of a flag with a value |
| Redumper.PassEffect | MPF.ExecutionContexts/Redumper/ExecutionContext.cs:729-905 | Under any lawful table for parsing's flags with a value, a pass does to the token at the cursor exactly what `TokenEffect` says, whenever it states an effect: the cursor, the marks and the values |
| Redumper.PlacedEffect | MPF.ExecutionContexts/Redumper/ExecutionContext.cs:729-905 | A token holding `=` or a bare flag has the effect `PlacedKeys` and `PlacedValues` say, with the cursor left on it |
| Redumper.PlacedAssignment | MPF.ExecutionContexts/Redumper/ExecutionContext.cs:744 | A lone `flag=t` for a flag with a value is read in place, marks the flag and stores t |
| Redumper.SeparateEffect | MPF.ExecutionContexts/Redumper/ExecutionContext.cs:744-751 | A lone `flag value`, whose value the reader takes and which names no flag, marks the flag, stores the value and moves the cursor onto it |
| Redumper.MarkedByAny | MPF.ExecutionContexts/Redumper/ExecutionContext.cs:722-906 | A run of in-place tokens marks a key exactly when one of its tokens does |
| Redumper.StoredByBare | MPF.ExecutionContexts/Redumper/ExecutionContext.cs:722-906 | A run of bare flags stores no value |
| Redumper.StoredByEvolves | MPF.ExecutionContexts/Redumper/ExecutionContext.cs:722-906 | Storing a run moves the value fields only as parsing allows |
| Redumper.StoredByAppend | MPF.ExecutionContexts/Redumper/ExecutionContext.cs:722-906 | Two runs read one after the other act as one: their keys join and the second's values are stored over the first's |
| Redumper.SweepStep | MPF.ExecutionContexts/Redumper/ExecutionContext.cs:722-906 | The loop from a token is one pass over it, then the loop from the token after the one that pass stopped on (`i++` after the blocks' `ref i`) |
| Redumper.SweepAfterPass | MPF.ExecutionContexts/Redumper/ExecutionContext.cs:722-906 | The same step, with the pass's cursor, marks and values named |
| Redumper.EffectRunStep | MPF.ExecutionContexts/Redumper/ExecutionContext.cs:722-906 | A stated run of effects from a token is that token's stated effect, then the stated run from the token after the one it stops on |
| Redumper.EffectRunCons | MPF.ExecutionContexts/Redumper/ExecutionContext.cs:722-906 | Conversely, a token with a stated effect followed by a stated run makes a stated run: the keys of both, and the later values |
| Redumper.ReadersFollow | MPF.ExecutionContexts/Redumper/ExecutionContext.cs:729-905 | Parsing's readers, under a lawful table for parsing's flags with a value, do what `TokenEffect` says at every cursor and in every state |
| Redumper.PassDoesEffect | MPF.ExecutionContexts/Redumper/ExecutionContext.cs:729-905 | Where the pass follows `TokenEffect` and it states an effect, the pass leaves that effect's cursor and values and marks exactly its keys |
| Redumper.MarkedNothing | MPF.ExecutionContexts/Redumper/ExecutionContext.cs:722-906 | Marking no key leaves the presence map as it was |
| Redumper.MarkedExactlyThen | MPF.ExecutionContexts/Redumper/ExecutionContext.cs:722-906 | Marking exactly the keys a, then exactly the keys b, marks exactly a + b |
| Redumper.SweepFollowsEffects | MPF.ExecutionContexts/Redumper/ExecutionContext.cs:722-906 | The loop is the fold of `TokenEffect`: wherever every token the loop visits has a stated effect, the loop marks exactly the keys of those effects and leaves the values they give in turn, `flag value` pairs included |
| Redumper.SeparatePairRun | MPF.ExecutionContexts/Redumper/ExecutionContext.cs:744-751 | A last `flag value` pair whose value the flag's reader takes and which names no flag has the run of effects: that flag, and the value stored |
| Redumper.SeparatePairSwept | MPF.ExecutionContexts/Redumper/ExecutionContext.cs:722-906 | For such a pair, such as `--speed 8` at the end of the line, the loop marks exactly that flag and stores that value, and changes nothing else |
| Redumper.ReadersFramed | MPF.ExecutionContexts/Redumper/ExecutionContext.cs:729-905 | Parsing's pass marks only parsed flags and moves values only as parsing allows, at every cursor and in every state |
| Redumper.SweepFramed | MPF.ExecutionContexts/Redumper/ExecutionContext.cs:722-906 | A loop of passes that each mark only keys of a set marks only keys of that set, and its values move only as parsing allows |
| Redumper.SweepKeeps | MPF.ExecutionContexts/Redumper/ExecutionContext.cs:722-906 | Parsing's loop marks only parsed flags, and its values move only as parsing allows |
| Redumper.MarkedByCons | MPF.ExecutionContexts/Redumper/ExecutionContext.cs:722-906 | A run of in-place tokens marks what its first token marks and what the rest marks |
| Redumper.StoredByCons | MPF.ExecutionContexts/Redumper/ExecutionContext.cs:722-906 | A run of in-place tokens stores its first token's value, then the rest's over it |
| Redumper.RunFoldCons | MPF.ExecutionContexts/Redumper/ExecutionContext.cs:722-906 | The run from a token is that token, then the run from the next one, for both the marks and the values |
| Redumper.TablePlaced | MPF.ExecutionContexts/Redumper/ExecutionContext.cs:729-905 | Parsing's table gives every in-place token the effect `PlacedKeys` and `PlacedValues` say |
| Redumper.PlacedRun | MPF.ExecutionContexts/Redumper/ExecutionContext.cs:722-906 | Over in-place tokens, the fold of `TokenEffect` is the keys `MarkedBy` names and the values `StoredBy` gives |
| Redumper.PlacedSweep | MPF.ExecutionContexts/Redumper/ExecutionContext.cs:722-906 | Over in-place tokens, parsing's loop marks exactly the keys of `MarkedBy` and leaves the values of `StoredBy` |
| Redumper.ModeRunLength | MPF.ExecutionContexts/Redumper/ExecutionContext.cs:671-719 | The leading run of mode words: all of them are modes, and the token after the run is not |
| Redumper.StepText | MPF.ExecutionContexts/Redumper/ExecutionContext.cs:744-746 | A text flag's block: `flag=t` or `flag t` marks the flag and stores t with quotes trimmed, unless empty; the cursor moves only onto a separate value; a token naming another flag changes nothing |
| Redumper.StepQuoted | MPF.ExecutionContexts/Redumper/ExecutionContext.cs:759-766 | A path flag's block: as for text, with the stored value wrapped in one pair of quotes |
| Redumper.StepInt32 | MPF.ExecutionContexts/Redumper/ExecutionContext.cs:749-751 | A 32-bit flag's block: `flag=t` marks the flag and stores the number t spells unless `int.MinValue`; `flag t` does so and moves onto t only when t parses, else changes nothing |
| Redumper.StepFill | MPF.ExecutionContexts/Redumper/ExecutionContext.cs:854-856 | The skip-fill block: as for 32-bit flags, with a byte and 0 in place of `int.MinValue` |
| Redumper.ParseGeneral | MPF.ExecutionContexts/Redumper/ExecutionContext.cs:729-771 | Exactly the `Pass` of the region's readers in source order, each block doing what `ReaderEffect` says: `flag=t` marks the flag and stores t through the field's guard; `flag value` does so and moves the cursor onto the value when the reader takes it; a valueless flag's spelling marks it (`-h` as `--help`). The readers are help, version, verbose, debug, drive, speed, retries, image path, image name and overwrite |
| Redumper.ParseDriveConfiguration | MPF.ExecutionContexts/Redumper/ExecutionContext.cs:773-805 | Exactly the `Pass` of the region's readers in source order, each block doing what `ReaderEffect` says: `flag=t` marks the flag and stores t through the field's guard; `flag value` does so and moves the cursor onto the value when the reader takes it; a valueless flag's spelling marks it. The readers are drive type, read offset, C2 shift, pregap start, read method and sector order |
| Redumper.ParseDriveSpecificAndOffset | MPF.ExecutionContexts/Redumper/ExecutionContext.cs:807-840 | Exactly the `Pass` of the region's readers in source order, each block doing what `ReaderEffect` says: `flag=t` marks the flag and stores t through the field's guard; `flag value` does so and moves the cursor onto the value when the reader takes it; a valueless flag's spelling marks it. The readers are Plextor lead-in skip, lead-in retries, ASUS lead-out skip, force offset, audio threshold, offset-shift correction and relocation |
| Redumper.ParseSplit | MPF.ExecutionContexts/Redumper/ExecutionContext.cs:842-861 | Exactly the `Pass` of the region's readers in source order, each block doing what `ReaderEffect` says: `flag=t` marks the flag and stores t through the field's guard; `flag value` does so and moves the cursor onto the value when the reader takes it; a valueless flag's spelling marks it. The readers are force split, leave unchanged, force QTOC, skip fill (a byte, 0 not stored) and ISO 9660 trim |
| Redumper.ParseMiscellaneous | MPF.ExecutionContexts/Redumper/ExecutionContext.cs:863-905 | Exactly the `Pass` of the region's readers in source order, each block doing what `ReaderEffect` says: `flag=t` marks the flag and stores t through the field's guard; `flag value` does so and moves the cursor onto the value when the reader takes it; a valueless flag's spelling marks it. The readers are LBA start and end, subchannel refinement, skip, write offset, read size and four valueless flags |
| Redumper.ParseToken | MPF.ExecutionContexts/Redumper/ExecutionContext.cs:729-905 | Exactly `TokenPass`, the five regions' readers in source order on the token at the cursor. The cursor stays or moves forward within the tokens, only parsed flags are marked and values move only as parsing allows. A token holding `=` or a bare flag keeps the cursor, marks exactly `PlacedKeys` and leaves exactly `PlacedValues`. The loop from the token at the cursor is the loop from the token after the cursor the pass leaves |
| Redumper.ReadModes | MPF.ExecutionContexts/Redumper/ExecutionContext.cs:667-719 | The modes are exactly the leading run of mode words. The scan succeeds exactly when the run reaches the end or the next token starts with `-` |
| Redumper.ReadFlags | MPF.ExecutionContexts/Redumper/ExecutionContext.cs:722-906 | Exactly `Sweep`: the final marks and values are those of one pass per token, each pass starting on the token after the one the previous pass stopped on, so a `flag value` pair is read as one. The loop marks only parsed keys and moves values only as parsing allows. When every remaining token is read in place (`flag=t` or a bare flag), the marked keys are exactly `MarkedBy` of those tokens and the values are `StoredBy`: each token's value stored in turn, a later one winning |
| Redumper.ParseTokens | MPF.ExecutionContexts/Redumper/ExecutionContext.cs:667-910 | The modes are the leading run of mode words, and parsing succeeds exactly when the next token is absent or flag-like. A failure changes no flag and no value. On success the flags and values are exactly those of `Sweep` from the first token after the modes, with the image-name default applied. Success marks only parsed flags and leaves a non-empty image name. Modes followed only by in-place tokens succeed with marks `MarkedBy` and values `StoredBy` plus the image-name default; followed only by bare flags, no value but the image-name default changes |
| Redumper.WithDefaultImageName | MPF.ExecutionContexts/Redumper/ExecutionContext.cs:908-910 | An unset or empty image name becomes `track`; every other value, and a non-empty name, stay |
| Redumper.DefaultMode | MPF.ExecutionContexts/Redumper/ExecutionContext.cs:564-585 | A dumpable media type gets a mode word: Blu-ray `bd`, DVD and HD-DVD `dvd`, and a CD-ROM `sacd` for a Super Audio CD and `cd` otherwise |
| Redumper.TurnOnMarks | MPF.ExecutionContexts/Redumper/ExecutionContext.cs:588-644 | Setting `this[flag] = true` for a set of flags marks exactly those flags and leaves every other entry alone |
| Redumper.OutputDirectory | MPF.ExecutionContexts/Redumper/ExecutionContext.cs:622-624 | A non-empty output directory comes from a non-empty file name |
| Redumper.OutputName | MPF.ExecutionContexts/Redumper/ExecutionContext.cs:622-631 | A non-empty image name comes from a non-empty file name |
| Redumper.DefaultedFlagsCarryValues | MPF.ExecutionContexts/Redumper/ExecutionContext.cs:588-646 | Drive and speed are stored as given and the retry count from its setting. Every settings-driven flag that is turned on carries its value: a non-empty read method or sector order, `GENERIC`, the quoted directory and name, the lead-in retry count |
| Redumper.DefaultsKeepOthers | MPF.ExecutionContexts/Redumper/ExecutionContext.cs:588-646 | A value whose flag is not turned on keeps its old contents, and values outside the defaulting step are untouched |
| Redumper.RenderInt | MPF.ExecutionContexts/Redumper/ExecutionContext.cs:287 | An integer property is written as decimal digits, which the 32-bit parse reads back as the same value |
| Redumper.ExecutionContext.constructor | MPF.ExecutionContexts/Redumper/ExecutionContext.cs:164-167 | A context for a system and media type, with no command, no modes, no flags and no values |
| Redumper.ExecutionContext.InputPath | MPF.ExecutionContexts/Redumper/ExecutionContext.cs:18 | Present exactly when a drive is, with no quote left at either end |
| Redumper.ExecutionContext.InputPathUnquotes | MPF.ExecutionContexts/Redumper/ExecutionContext.cs:18 | A drive stored in one pair of quotes is reported without them |
| Redumper.ExecutionContext.Speed | MPF.ExecutionContexts/Redumper/ExecutionContext.cs:27 | The drive speed as stored |
| Redumper.ExecutionContext.IsDumpingCommand | MPF.ExecutionContexts/Redumper/ExecutionContext.cs:504-514 | The placeholder command dumps; no command does not |
| Redumper.ExecutionContext.GetCommandSupport | MPF.ExecutionContexts/Redumper/ExecutionContext.cs:173-232 | One entry, under the placeholder command, listing all 40 flags in declaration order |
| Redumper.ExecutionContext.Fragment | MPF.ExecutionContexts/Redumper/ExecutionContext.cs:249-492 | A block writes nothing unless its flag is set. A valueless flag is written exactly when set; a valued flag is written as `flag=value` |
| Redumper.ExecutionContext.ValueText | MPF.ExecutionContexts/Redumper/ExecutionContext.cs:271-492 | The text after `flag=`: the drive whenever set; the skip-fill byte whenever set; the read size exactly when positive, in decimal that reads back; skip ranges exactly when non-empty; an integer flag's field whenever set, in decimal that reads back |
| Redumper.ExecutionContext.EmittedFrom | MPF.ExecutionContexts/Redumper/ExecutionContext.cs:249-492 | The blocks write at most one token per flag |
| Redumper.ExecutionContext.GenerateParameters | MPF.ExecutionContexts/Redumper/ExecutionContext.cs:240-495 | A null mode list becomes the placeholder. The output is the modes followed by every flag block in declaration order, joined by single spaces |
| Redumper.ExecutionContext.EmittedAreLong | MPF.ExecutionContexts/Redumper/ExecutionContext.cs:249-492 | Every token the blocks write starts with `--` |
| Redumper.ExecutionContext.HelpShortNeverEmitted | MPF.ExecutionContexts/Redumper/ExecutionContext.cs:251-253 | Generation never writes `-h` |
| Redumper.ExecutionContext.BareEmitted | MPF.ExecutionContexts/Redumper/ExecutionContext.cs:249-492 | A valueless flag is written if and only if it has a block and is set |
| Redumper.ExecutionContext.ValuedEmitted | MPF.ExecutionContexts/Redumper/ExecutionContext.cs:271-492 | A set valued flag with a value to write is written as `flag=value` |
| Redumper.ExecutionContext.EmittedNamesItsFlag | MPF.ExecutionContexts/Redumper/ExecutionContext.cs:249-492 | Conversely, a `flag=t` token the blocks write comes from that flag's own block: the flag is set and t is its text |
| Redumper.ExecutionContext.WrittenOnlyWhenSet | MPF.ExecutionContexts/Redumper/ExecutionContext.cs:249-492 | A `flag=t` token of the generated line means the flag is set and carries text t |
| Redumper.ExecutionContext.DumpReadSizeNotWrittenUnlessPositive | MPF.ExecutionContexts/Redumper/ExecutionContext.cs:469-474 | A read size that is unset, zero or negative is not written |
| Redumper.ExecutionContext.SkipNotWrittenWhenEmpty | MPF.ExecutionContexts/Redumper/ExecutionContext.cs:455-460 | Skip ranges that are unset or empty are not written |
| Redumper.ExecutionContext.IntFlagReadsBack | MPF.ExecutionContexts/Redumper/ExecutionContext.cs:283-295 | A set integer flag is written as `flag=` plus decimal digits. The `flag=value` split and the 32-bit parse read that token back as the stored value |
| Redumper.ExecutionContext.SkipFillWrittenInHex | MPF.ExecutionContexts/Redumper/ExecutionContext.cs:422-428 | A set skip-fill byte is written in lowercase hex, which reads back as the byte in base 16 |
| Redumper.ExecutionContext.DumpReadSizeWrittenWhenPositive | MPF.ExecutionContexts/Redumper/ExecutionContext.cs:469-474 | A set, positive read size is written in decimal and reads back as the same value |
| Redumper.ExecutionContext.DriveWrittenQuotedWhenSpaced | MPF.ExecutionContexts/Redumper/ExecutionContext.cs:271-281 | A drive holding a space is written quoted and otherwise bare; stripping the quotes gives the drive back |
| Redumper.ExecutionContext.ValidateAndSetParameters | MPF.ExecutionContexts/Redumper/ExecutionContext.cs:650-913 | See the parsing paragraph below the table |
| Redumper.ExecutionContext.ResetValues | MPF.ExecutionContexts/Redumper/ExecutionContext.cs:517-550 | Command back to the placeholder, presence map empty, every value cleared except the write offset and the lead-in retries; the modes stay |
| Redumper.ExecutionContext.NothingSetEmitsNothing | MPF.ExecutionContexts/Redumper/ExecutionContext.cs:517-521 | With an empty presence map, as after a reset, the flag blocks write nothing |
| Redumper.ExecutionContext.SetDefaultParameters | MPF.ExecutionContexts/Redumper/ExecutionContext.cs:553-647 | A media type redumper cannot dump changes nothing. Otherwise the command becomes the placeholder and the mode follows the media type; the settings' flags are turned on and their values stored, and nothing else changes |

`Redumper.ExecutionContext.ValidateAndSetParameters` promises the following:

- Missing or empty input fails and leaves the modes alone.
- Otherwise the modes are the leading run of mode words, and the call succeeds
  exactly when the token after that run is absent or starts with `-`.
- A failure changes neither the flags nor the values.
- A success leaves exactly the flags and values of `Sweep` over the tokens
  after the mode words, started from the flags and values before the call,
  with the image-name default applied to the values. Each pass starts on the
  token after the one the previous pass stopped on, so `flag value` pairs are
  read as the loop reads them.
- A success only marks parsed flags and stores no sentinel and no empty text.
- After a success the image name is never empty.
- White-space-only input (any `char.IsWhiteSpace` characters) succeeds with no
  modes and no flags.
- When the mode words are followed only by valueless flags, the call succeeds,
  marks exactly the flags those tokens name (`-h` as `--help`, nothing for
  `--auto-eject`), and changes no value except the image-name default.
- When every token after the mode words holds `=` or is a valueless flag, the
  call succeeds exactly as said above. It marks exactly the keys of `MarkedBy`,
  and the values are `WithDefaultImageName(StoredBy(...))`: each `flag=t` is
  stored in turn, so a later token for the same flag wins.

## Left out

- `Redumper.SweepFollowsEffects`: the fold of `TokenEffect` is stated only
  where every token the loop visits has a stated effect. A flag with a value
  followed by a value token that is itself a flag spelling, `-h` or holds `=`
  has none, because the readers after that flag read the token again in the
  same pass. There the loop is stated by `Sweep` alone, that is, by the passes
  themselves.
- `Redumper.ExecutionContext.ValidateAndSetParameters`: the token split stands
  in for the regular expression `([a-zA-Z\-]*=)?["].+?["]|[^ ]+`.
  `Tokenizer.Matches` implements that pattern by hand, match by match, and its
  lemmas are proved about that implementation. Regex engine semantics in
  general are not modelled.
- `Redumper.ExecutionContext.ValidateAndSetParameters`: the source appends each
  mode to `ModeValues` as it scans. The model assigns the scanned run once. The
  value at every return is the same.
- `Redumper.ExecutionContext.SetDefaultParameters`: the source turns the flags on
  one by one. The model gathers them in `DefaultedKeys` and the stored values in
  `DefaultedValues`, then assigns both. The resulting state is the same.
- `Redumper.ExecutionContext.GenerateParameters`: the source has 39 if-blocks in
  a row. The model folds one block rule (`Fragment`) over the flags in
  declaration order without `-h` (`GenerationOrder`).
- The base-class helpers are not part of this model. These are the presence-map
  indexer, `ProcessFlagParameter`, `ProcessStringParameter`,
  `ProcessInt32Parameter`, `ProcessUInt8Parameter`, `DoesExist`,
  `ExtractFactorFromValue`, `RemoveHexIdentifier` and the `Get*Setting`
  lookups. Each has a stand-in body written from how the context uses it. The
  stand-ins' contracts state that the cursor stays within the tokens and that
  only the helper's own flag is marked. They also fix the value read: text with
  its surrounding quotes trimmed, and numbers through the plain decimal
  `TryParse`, with no unit-factor or hex stage.
- `CommandStrings` and `SettingConstants` are not part of this model. The mode
  spellings (for example `bd` for Blu-ray), the settings keys and their
  defaults are assumed values.
- `Path.GetDirectoryName` and `Path.GetFileNameWithoutExtension` are simplified
  stand-ins. They split at the last `/` or `\` and cut at the last `.`. Drive
  roots, invalid characters and platform rules are not modelled.
- `OutputPath`, `GetDefaultExtension` and `GetMediaType` are left out. They
  depend on `Path.Combine` and a media-type extension table that are not part
  of this model.
- `Numeric.TryParse`: culture-dependent parsing is not modelled. Decimal
  parsing accepts an optional leading `+` or `-` and ASCII digits only.
  Surrounding white space, thousands separators and other cultures' digits
  are not accepted.
- `Numeric.TryParseBool`: case folding covers ASCII letters only. Non-ASCII
  characters that .NET's ordinal case-insensitive comparison folds onto the
  letters of `true` or `false` are not modelled.
- `Data.Int32ArrInput`: `Size` is a natural number. A negative size, for which
  the source's `new int?[Size]` throws `OverflowException`, is not modelled.
- The model does not prove that generating and then parsing gives back the
  same context. Instead, each kind of value is shown to read back on its own:
  `IntFlagReadsBack`, `DumpReadSizeWrittenWhenPositive`,
  `DriveWrittenQuotedWhenSpaced`, `SkipFillWrittenInHex`.
- `Int32ArrInput`: `MinValue` and `MaxValue` are never consulted by the
  source, so they are not modelled.
- Constructors that parse a string, or apply defaults, through the base class
  are not modelled as such. A caller constructs an empty context and then calls
  `ValidateAndSetParameters` or `SetDefaultParameters`.

### Behaviour of the code worth knowing

- Input made only of white space, in the sense of `char.IsWhiteSpace`, is accepted. The emptiness test runs before
  the trim, the trimmed text splits into no tokens, and parsing returns true.
- Generation falls back to the placeholder mode only when the mode list is
  null (`??=`), not when it is empty. Because the placeholder is the empty
  string, the generated text then starts with a space whenever at least one
  flag is written, and it is not trimmed; with no flag written it is empty.
- Only the drive is quoted on output when it contains a space. No other text
  value is quoted.
- `--auto-eject` is written when set, but parsing has no reader for it.
- A `BooleanInput` followed by a literal returns the literal and advances past
  it, but leaves `Value` unchanged.
- The numeric inputs' name test is loose. With no long name, any token is
  accepted as the flag.
