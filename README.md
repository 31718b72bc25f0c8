# hlibs: ANSI control sequences, small types and string loggers in Dafny

This project models the core of `hlibs`, a small C++ header library:

- `libs::standard::ansi` builds ANSI/VT100 control sequences (CSI, SGR, Fs and Fp sequences) and validates CSI sequences with `CSISequencer::IsValid`. It is modelled in `ansi.dfy`, with the validator's language, a scanner and a renderer in `ansi_grammar.dfy`.
- The earlier `ansi` namespace has an escaped-text `CSI` object, `CSIEnclose`, `Enclose` and `CSISequencer::setCUU`. It is modelled in `ansi_legacy.dfy`.
- `libs::types` has `ObjectCounter<T>`, the ordered interval `Range<T>` and `RGBColor` with its named-colour table. These are in `types.dfy`. The later five-colour table of `hlibs::types` is in `types_revised.dfy`.
- `hlibs::facilities::strings` has `ToUpperCase` and the two `Contains` overloads. These are in `strings.dfy`, together with `CheckRange` as the validator uses it.
- `libs::logging` has severity levels, `LoggerSettings` and the counted `Logger` base. These are in `logger.dfy`.
- `StringLogger` buffers log lines and flushes them into a shared target string. It is in `string_logger.dfy`.
- `numerals.dfy` renders numbers in decimal the way `std::to_string` does, and parses them back.
- `option.dfy` holds an `Option` type.

The model of each file follows that file's own form:

- The sequence builders and the validator are pure, so they are Dafny functions.
- Every CSI builder is specified through the scanner. The scanner reads the sequence back into its parameters and final byte, and the builder is proved to be accepted by `IsValid`, or proved to be rejected by it where that is the case.
- `ObjectCounter`, `CSI`, `Logger` and `StringLogger` update their fields in place, so they are classes with `modifies` clauses.
- Each `StringLogger` method is proved against a pure state-transition function over a `State` value. Lemmas about those functions show what the logger promises:
  - flushed plus buffered messages equal the messages accepted;
  - the target holds exactly the flushed lines, in order;
  - the destructor delivers everything, followed by the trailer.
- `ToUpperCase` transforms a copy in place, so it is a method with a loop over an array.

`Range` and `ObjectCounter` are the same in `src/types/types.hpp` and `sources/types/types.hpp`: `sources/types/types.hpp:21-90` repeats `src/types/types.hpp:14-85`. The model cites the first file.

## Model

| member | source | states |
|---|---|---|
| Numerals.Decimal | src/standard/ansi.hpp:95-101 | `std::to_string` of an unsigned count is a non-empty string of digits with no leading zero, unless it is "0" |
| Numerals.ParseDecimalOfDecimal | src/standard/ansi.hpp:95-101 | reading the rendered numeral back gives the number that was rendered |
| Numerals.DecimalInjective | src/standard/ansi.hpp:95-101 | distinct counts are rendered as distinct numerals |
| Numerals.IntText | src/types/types.hpp:75-78 | `std::to_string` of a signed bound is digits with at most a leading minus sign, present only for negative values |
| Numerals.ParseIntOfIntText | src/types/types.hpp:75-78 | a signed numeral reads back as the value it renders |
| Types.ObjectCounter.constructor | src/types/types.hpp:50-51 | both statics start at zero and alive never exceeds created |
| Types.ObjectCounter.Construct | src/types/types.hpp:20-23 | default construction increments both created and alive by one |
| Types.ObjectCounter.CopyConstruct | src/types/types.hpp:25-28 | copy construction increments both created and alive by one |
| Types.ObjectCounter.Destroy | src/types/types.hpp:37-40 | destruction decrements alive only; created is unchanged |
| Types.ObjectCounter.Increment | src/types/types.hpp:42-46 | `increment` adds one to both counters and keeps alive at most created |
| Types.MakeRange | src/types/types.hpp:61-63 | the constructor keeps its two arguments, ordered so that left is at most right |
| Types.CharRange | src/types/types.hpp:61-63 | a `Range<char>` is the ordered range of the two character codes |
| Types.Convert | src/types/types.hpp:65-68 | the converting constructor keeps both bounds as they are |
| Types.Length | src/types/types.hpp:70-73 | `getLength` n of an ordered range puts left + n inside the range and left + n + 1 outside it |
| Types.IsIn | src/types/types.hpp:80-83 | `isIn(v)` is inclusive at both ends; `Types.IsInConstructed` states the values it accepts |
| Types.RangeText | src/types/types.hpp:75-78 | `toString` is at least five characters, opens with '(', closes with ')' and holds a comma |
| Types.IsInConstructed | src/types/types.hpp:80-83 | `isIn(v)` holds exactly when v lies between the smaller and the larger constructor argument, both ends included |
| Types.LengthCountsMembers | src/types/types.hpp:70-73 | `getLength` of an ordered range is one less than the number of values `isIn` accepts |
| Types.RangeTextReadsBack | src/types/types.hpp:75-78 | `toString` is "(", left, ",", right, ")" and both bounds can be read back from it |
| Types.ReversedArgumentsExample | src/types/types.hpp:61-83 | `Range(5,-2)` is (-2,5) with length 7 and text "(-2,5)"; (-2,0) has length 2 and contains -2 and 0 but not 2 |
| Types.ConvertCharRangeExample | src/types/types.hpp:65-68 | converting `Range<char>('a','z')` gives the integer range (97,122) |
| Types.ColorCodes | src/types/types.hpp:112-115 | every named colour has exactly three components |
| Types.Get | src/types/types.hpp:109-119 | `Get(color, shift)` is one of the colour's three table components; shift defaults to 0 |
| Types.NamedColor | src/types/types.hpp:105-107 | the named constructor takes red, green and blue from the colour's table entry, in that order; Black by default |
| Types.NamedColorValues | src/types/types.hpp:110-119 | the default colour is (0,0,0) and Teal is (0,128,128) |
| TypesRevised.ColorCodes | sources/types/types.hpp:118-124 | every one of the five named colours has exactly three components |
| TypesRevised.Get | sources/types/types.hpp:115-128 | `Get(color, shift)` is one of the colour's three table components; shift defaults to 0 |
| TypesRevised.NamedColor | sources/types/types.hpp:111-113 | the named constructor takes its components from the table entry; Black by default |
| TypesRevised.NamedColorValues | sources/types/types.hpp:116-128 | the table gives Black (0,0,0), Teal (0,128,128), Crimson (220,20,60), Lavender (230,230,250) and Isabelline (244,240,236) |
| TypesRevised.NamedColorInjective | sources/types/types.hpp:118-124 | distinct colour names give distinct colours |
| TypesRevised.ExtendsEarlierTable | sources/types/types.hpp:118-124 | the later table agrees with the earlier one on Black and Teal |
| Strings.ToUpperCase | sources/facilities/strings.hpp:12-17 | the in-place transform of the copy yields the character-wise upper-case mapping of the source |
| Strings.Upper | sources/facilities/strings.hpp:14-15 | the `::toupper` image keeps the length and leaves no lower-case letter |
| Strings.UpperMapsLettersOnly | sources/facilities/strings.hpp:14-15 | upper-casing keeps the length, maps a to z onto A to Z and leaves every other character as it is |
| Strings.UpperIdempotent | sources/facilities/strings.hpp:15 | the result has no lower-case letter, and upper-casing it again changes nothing |
| Strings.ToUpperCaseExample | catch2_tests/strings/strings_test.cpp:9-14 | "camelCase" becomes "CAMELCASE" |
| Strings.FindChar | sources/facilities/strings.hpp:21 | `find` of a character gives its first position, or none exactly when the character is absent |
| Strings.ContainsChar | sources/facilities/strings.hpp:19-22 | `Contains(s, c)` holds exactly when c occurs in s |
| Strings.FindString | sources/facilities/strings.hpp:26 | `find` of a string gives the first position where it occurs, or none exactly when it occurs nowhere |
| Strings.Contains | sources/facilities/strings.hpp:24-27 | `Contains(s, w)` holds exactly when w occurs in s as a contiguous substring |
| Strings.ContainsEmpty | sources/facilities/strings.hpp:26 | every string contains the empty string |
| Strings.ContainsExamples | sources/facilities/strings.hpp:19-27 | a line feed is found in a string that ends with one; one substring is found and a near miss is not |
| Strings.CheckRange | src/standard/ansi.hpp:226-230 | `CheckRange` holds exactly when every character's code lies in the range |
| Strings.CheckRangeExamples | src/standard/ansi.hpp:226-230 | the lower-case alphabet lies in ('a','z'), and one upper-case letter breaks that |
| Strings.CheckRangeEscapeExample | src/standard/ansi.hpp:226-230 | an SGR sequence lies in the range from ESC to '~' |
| AnsiGrammar.RepeatedSound | src/standard/ansi.hpp:249 | whatever the many-parameter pattern accepts is digits and semicolons that begin and end with a digit and hold a semicolon |
| AnsiGrammar.RepeatedComplete | src/standard/ansi.hpp:249 | every such parameter string with a semicolon is accepted by the many-parameter pattern |
| AnsiGrammar.PatternsDecideLanguage | src/standard/ansi.hpp:237-259 | some pattern matches exactly when the string is ESC, '[', empty or semicolon-separated decimal parameters, and a letter |
| AnsiGrammar.LanguageIsPrintable | src/standard/ansi.hpp:218-230 | every string in the language passes the printable-range gate after its first byte |
| AnsiGrammar.GateNeverChangesVerdict | src/standard/ansi.hpp:215-234 | `IsValid` holds exactly for the strings of the language, and a non-printable byte after the first makes it false |
| AnsiGrammar.ValidIffShape | src/standard/ansi.hpp:215-234 | between "ESC[" and a letter, `IsValid` accepts exactly the well-shaped parameter strings |
| AnsiGrammar.ValidExampleNoParam | catch2_tests/standard/ansi_test.cpp:91-120 | "ESC[s" is valid |
| AnsiGrammar.ValidExampleOneParam | catch2_tests/standard/ansi_test.cpp:91-120 | "ESC[0m" is valid |
| AnsiGrammar.ValidExampleTwoParams | catch2_tests/standard/ansi_test.cpp:91-120 | "ESC[23;24f" is valid |
| AnsiGrammar.ValidExampleEmptySlots | catch2_tests/standard/ansi_test.cpp:91-120 | "ESC[38;2;;;0;0;0;0;1111m" is valid: runs of semicolons are accepted |
| AnsiGrammar.InvalidExampleNotNumber | catch2_tests/standard/ansi_test.cpp:91-120 | a non-digit parameter is invalid |
| AnsiGrammar.InvalidExampleNegative | catch2_tests/standard/ansi_test.cpp:91-120 | a negative parameter is invalid |
| AnsiGrammar.InvalidExampleMissingLast | catch2_tests/standard/ansi_test.cpp:91-120 | "ESC[2;;F" is invalid: the parameters must end with a digit |
| AnsiGrammar.InvalidExampleMissingLastOfMany | catch2_tests/standard/ansi_test.cpp:91-120 | a long parameter list ending in a semicolon is invalid |
| AnsiGrammar.InvalidExampleSpace | catch2_tests/standard/ansi_test.cpp:91-120 | a space inside the parameters is invalid |
| AnsiGrammar.InvalidExampleLineFeed | catch2_tests/standard/ansi_test.cpp:91-120 | a line feed before the final letter is invalid |
| AnsiGrammar.InvalidExamplesUnframed | catch2_tests/standard/ansi_test.cpp:91-120 | a punctuation final byte, trailing control bytes and the empty string are invalid |
| AnsiGrammar.Scan | src/standard/ansi.hpp:237-259 | a successful scan comes from a framed sequence and keeps its final byte |
| AnsiGrammar.ScanDecides | src/standard/ansi.hpp:237-259 | the scanner succeeds exactly on the language of the four patterns |
| AnsiGrammar.ScanAgreesWithIsValid | src/standard/ansi.hpp:215-259 | the scanner succeeds exactly when `IsValid` holds |
| AnsiGrammar.RenderParamsScans | src/standard/ansi.hpp:95-212 | a rendered parameter list whose first and last parameters are explicit scans back to the same parameters and final byte, and is valid |
| AnsiGrammar.RenderScans | src/standard/ansi.hpp:95-212 | rendering decimal values with a letter scans back to those values and that letter, and is valid |
| AnsiGrammar.RenderOne | src/standard/ansi.hpp:95-101 | one value renders as "ESC[", its numeral and the final byte |
| AnsiGrammar.RenderTwo | src/standard/ansi.hpp:151-157 | two values render as "ESC[", the first numeral, ";", the second numeral and the final byte |
| AnsiGrammar.NoParamPattern | src/standard/ansi.hpp:246 | pattern 1 matches only "ESC[" and a letter, three characters |
| AnsiGrammar.SingleParamPattern | src/standard/ansi.hpp:247 | pattern 2 matches a framed string whose body is one or more digits |
| AnsiGrammar.DoubleParamPattern | src/standard/ansi.hpp:248 | pattern 3 matches a framed string of six or more characters whose body holds a semicolon |
| AnsiGrammar.MultiParamPattern | src/standard/ansi.hpp:249 | pattern 4 matches only framed strings |
| AnsiGrammar.MultiParamHasSemicolon | src/standard/ansi.hpp:249 | a match of pattern 4 is six or more characters and holds a semicolon between "ESC[" and the letter |
| AnsiGrammar.IsCsiMatchFound | src/standard/ansi.hpp:237-259 | whatever one of the four patterns matches starts with ESC and '[' and ends with a letter |
| AnsiGrammar.IsValid | src/standard/ansi.hpp:215-234 | a valid sequence is framed by "ESC[" and a letter, and every character after the first is printable |
| Ansi.CsiFinal | src/standard/ansi.hpp:19-36 | every CSI terminator is a letter |
| Ansi.CsiFunctionOf | src/standard/ansi.hpp:19-36 | reading a letter as a terminator names a function with that terminator |
| Ansi.CsiFinalInverse | src/standard/ansi.hpp:19-36 | the sixteen terminators are pairwise distinct, and each reads back as its function |
| Ansi.FpFinal | src/standard/ansi.hpp:42-45 | the Fp final bytes are digits |
| Ansi.FamiliesDisjoint | src/standard/ansi.hpp:19-45 | no CSI, Fs and Fp final bytes coincide |
| Ansi.CursorUp | src/standard/ansi.hpp:95-101 | `getCUU(n)` scans as one parameter n with final 'A' and is valid |
| Ansi.CursorDown | src/standard/ansi.hpp:103-109 | `getCUD(n)` scans as n with final 'B' and is valid |
| Ansi.CursorForward | src/standard/ansi.hpp:111-117 | `getCUF(n)` scans as n with final 'C' and is valid |
| Ansi.CursorBack | src/standard/ansi.hpp:119-125 | `getCUB(n)` scans as n with final 'D' and is valid |
| Ansi.CursorNextLine | src/standard/ansi.hpp:127-133 | `getCNL(n)` scans as n with final 'E' and is valid |
| Ansi.CursorPreviousLine | src/standard/ansi.hpp:135-141 | `getCPL(n)` scans as n with final 'F' and is valid |
| Ansi.CursorHorizontalAbsolute | src/standard/ansi.hpp:143-149 | `getCHA(n)` scans as n with final 'G' and is valid |
| Ansi.CursorPosition | src/standard/ansi.hpp:151-157 | `getCUP(row, column)` scans as row then column with final 'H' and is valid |
| Ansi.HorizontalVerticalPosition | src/standard/ansi.hpp:159-165 | `getHVP(row, column)` scans as row then column with final 'f' and is valid |
| Ansi.ScrollUp | src/standard/ansi.hpp:167-173 | `getSU(n)` scans as n with final 'S' and is valid |
| Ansi.ScrollDown | src/standard/ansi.hpp:175-181 | `getSD(n)` scans as n with final 'T' and is valid |
| Ansi.DisplayEraseCode | src/standard/ansi.hpp:70-75 | the erase-in-display modes are 0 to 3 |
| Ansi.LineEraseCode | src/standard/ansi.hpp:77-81 | the erase-in-line modes are 0 to 2 |
| Ansi.EraseInDisplay | src/standard/ansi.hpp:183-189 | `getED(mode)` is exactly "ESC[", the mode's one digit and 'J'; it scans as the mode with final 'J' and is valid |
| Ansi.EraseInLine | src/standard/ansi.hpp:191-197 | `getEL(mode)` is exactly "ESC[", the mode's one digit and 'K'; it scans as the mode with final 'K' and is valid |
| Ansi.EraseModesDistinct | src/standard/ansi.hpp:183-197 | distinct erase modes give distinct sequences |
| Ansi.SaveCursorPosition | src/standard/ansi.hpp:199-205 | `getSCP` is three bytes, scans with no parameter and final 's', and is valid |
| Ansi.RestoreCursorPosition | src/standard/ansi.hpp:207-213 | `getRCP` is three bytes, scans with no parameter and final 'u', and is valid |
| Ansi.CursorUpExample | catch2_tests/standard/ansi_test.cpp:25-29 | `getCUU(3)` is "ESC[3A" |
| Ansi.EraseDefaultsExample | src/standard/ansi.hpp:183-197 | `getED()` and `getEL()` default to mode 0 |
| Ansi.CursorMemoryExample | src/standard/ansi.hpp:199-213 | `getSCP` and `getRCP` are exactly "ESC[s" and "ESC[u" |
| Ansi.AttributeCode | src/standard/ansi.hpp:264-288 | every display attribute code is below 56 and is neither 38 nor 48 |
| Ansi.AttributeCodeInjective | src/standard/ansi.hpp:264-288 | distinct display attributes have distinct codes |
| Ansi.ForegroundCode | src/standard/ansi.hpp:298-316 | the named foreground codes lie in 30-39 or 90-97 |
| Ansi.BackgroundCode | src/standard/ansi.hpp:318-336 | the named background codes lie in 40-49 or 100-107 |
| Ansi.NamedColorCodes | src/standard/ansi.hpp:298-336 | each background code is its foreground code plus 10, foreground codes are distinct, and no foreground code is a background code |
| Ansi.DisplayAttributeSequence | src/standard/ansi.hpp:359-363 | `getDisplayAttribute` is exactly "ESC[", the numeral of the attribute's code and 'm'; it scans back as that code and is valid |
| Ansi.NamedColors | src/standard/ansi.hpp:373-377 | `getColor(fg, bg)` is exactly "ESC[", the foreground numeral, ';', the background numeral and 'm'; it scans back as those two codes and is valid |
| Ansi.ColorsReset | src/standard/ansi.hpp:366-370 | `getColorsReset` is the named-colour sequence of the two default colours |
| Ansi.ColorsResetText | src/standard/ansi.hpp:366-370 | the reset text "ESC[39;49m" is the SGR colour pair of the two default colours |
| Ansi.PlaneCode | src/standard/ansi.hpp:387 | a plane's extended-colour code is 38 or 48 |
| Ansi.CodeText | src/standard/ansi.hpp:387 | the code text is "38" for the foreground flag and "48" otherwise |
| Ansi.ColonFormInvalid | src/standard/ansi.hpp:246-249 | turning any parameter separator of a framed sequence into a colon makes it invalid |
| Ansi.ColonRenderingInvalid | src/standard/ansi.hpp:388-389 | the colon form of any rendered sequence with two or more parameters is invalid |
| Ansi.PaletteShape | src/standard/ansi.hpp:388-389 | the palette parameters render as code ";5;" index "m", and their colon form as code ":5:" index "m" |
| Ansi.PaletteColorAsWritten | src/standard/ansi.hpp:384-391 | the palette `getColor` as written gives the sequence of the opposite plane |
| Ansi.PaletteAsWrittenSwapsPlanes | src/standard/ansi.hpp:384-391 | as written, a foreground request starts with 48 and a background request with 38, unlike the corrected builder |
| Ansi.PaletteColor | src/standard/ansi.hpp:384-391 | the semicolon form is exactly the rendering of the plane's code, 5 and the index with final 'm'; it scans back as those values and is valid; the colon form is its colon transliteration and is invalid |
| Ansi.RgbParams | src/standard/ansi.hpp:423 | the 24-bit colour has six parameter slots with explicit first and last values |
| Ansi.RgbSemicolonShape | src/standard/ansi.hpp:424 | the semicolon form is code ";2;" r ";" g ";" b "m", the rendering of those five values |
| Ansi.RgbColonShape | src/standard/ansi.hpp:423 | the colon form is code ":2::" r ":" g ":" b "m", the colon transliteration of six slots with an empty colour-space slot |
| Ansi.GroundColor | src/standard/ansi.hpp:417-426 | `getGroundColor` gives the colon and semicolon forms for code 38 with the foreground flag, or 48 without it |
| Ansi.RgbColor | src/standard/ansi.hpp:395-407 | the semicolon form is exactly the rendering of the plane code, 2, red, green and blue with final 'm'; it scans back as those values and is valid; the colon form is invalid |
| Ansi.RgbColonSlots | src/standard/ansi.hpp:417-426 | the colon form is the transliteration of a sequence that scans as code, 2, an empty slot, red, green, blue |
| Ansi.PalettePlaneAgreesWithRgb | src/standard/ansi.hpp:384-407 | the corrected palette builder and the 24-bit builder use the same code for every plane |
| Ansi.FsSequence | src/standard/ansi.hpp:431-440 | an Fs sequence is ESC and its final byte, two bytes with no '[', not a CSI sequence |
| Ansi.FpSequence | src/standard/ansi.hpp:444-460 | an Fp sequence is ESC and its digit, two bytes with no '[', not a CSI sequence |
| Ansi.ResetToInitialState | src/standard/ansi.hpp:435-438 | `getRIS` is exactly ESC 'c' |
| Ansi.DecSaveCursor | src/standard/ansi.hpp:448-451 | `getDECSC` is exactly ESC '7' |
| Ansi.DecRestoreCursor | src/standard/ansi.hpp:455-458 | `getDECRC` is exactly ESC '8' |
| Ansi.MoveCursor | src/standard/ansi.hpp:503-521 | each direction moves by its CSI function: the sequence is exactly the rendering of the cell count with that function's terminator, scans back as the count and is valid |
| Ansi.MoveCursorInjective | src/standard/ansi.hpp:503-521 | distinct direction and count pairs give distinct sequences |
| Ansi.ScrollPage | src/standard/ansi.hpp:554-563 | the sequence is exactly the rendering of the line count with 'S' for page down and 'T' for page up, as written; it scans back as the count and is valid |
| Ansi.ClearScreen | src/standard/ansi.hpp:565-569 | `ClearScreen` is exactly the erase-in-display text of the given mode ('J'), and is valid |
| Ansi.EraseLine | src/standard/ansi.hpp:571-575 | `EraseLine` is exactly the erase-in-line text of the given mode ('K'), and is valid |
| Ansi.ClearDefaults | src/standard/ansi.hpp:565-575 | `ClearScreen()` and `EraseLine()` default to mode 2 |
| Ansi.SetDisplay | src/standard/ansi.hpp:577-581 | `SetDisplay` is exactly the rendering of the attribute's code with final 'm', and scans back as that code |
| Ansi.SetColor | src/standard/ansi.hpp:583-587 | `SetColor` is exactly the rendering of the foreground then the background code with final 'm', and scans back as those codes |
| Ansi.ResetDisplay | src/standard/ansi.hpp:601-605 | `ResetDisplay` scans as the single parameter 0 with final 'm' |
| Ansi.ResetColors | src/standard/ansi.hpp:607-611 | `ResetColors` is the named-colour sequence of the two default colours, so it reads back as 39 and 49 with final 'm' |
| Ansi.ResetDisplayExample | src/standard/ansi.hpp:601-605 | the attribute reset is "ESC[0m" |
| Ansi.ResetTerminal | src/standard/ansi.hpp:613-617 | `ResetTerminal` is exactly ESC 'c' and is not a CSI sequence |
| Ansi.AnsiSequencer.MoveCursorTo | src/standard/ansi.hpp:523-532 | exactly the rendering of row then column, with HVP's 'f' only for the format-effector move type and CUP's 'H' otherwise |
| Ansi.AnsiSequencer.SaveCursor | src/standard/ansi.hpp:534-542 | SCP for the Fe type and DECSC for Fp; the result is valid exactly for Fe |
| Ansi.AnsiSequencer.RestoreCursor | src/standard/ansi.hpp:544-552 | RCP for the Fe type and DECRC for Fp; the result is valid exactly for Fe |
| Ansi.AnsiSequencer.SetPaletteColor | src/standard/ansi.hpp:589-593 | forwards to the palette `getColor` as written, so the sequence carries the code of the other plane (38 for the default `Background`, 48 for `Foreground`); the semicolon form is exactly its rendering and scans back, the colon form is its colon transliteration; valid exactly when colons are off |
| Ansi.AnsiSequencer.SetRgbColor | src/standard/ansi.hpp:595-599 | the 24-bit colour of the requested plane: with semicolons exactly the rendering of code, 2, red, green, blue and 'm'; with colons the colon transliteration of the six slots; valid exactly when colons are off |
| Ansi.FacadeDefaults | src/standard/ansi.hpp:498-500 | a default facade addresses the cursor with CUP, saves and restores it with DECSC and DECRC, and writes palette colours with colons through the as-written palette builder (`setColor(uint8_t, type)`, lines 589-593), so the default `Background` request carries 38; the validator rejects it |
| AnsiLegacy.Introducer | src/ansi/ansi.hpp:27-36 | each style's introducer is five characters, a backslash to '[', and never holds the escape byte |
| AnsiLegacy.IntroducersDiffer | src/ansi/ansi.hpp:27-36 | the octal and hexadecimal introducers differ |
| AnsiLegacy.CSI.constructor | src/ansi/ansi.hpp:23-25 | a new `CSI` holds the introducer of the requested style, octal by default |
| AnsiLegacy.CSI.Set | src/ansi/ansi.hpp:27-36 | `set` replaces the text with the introducer of the style given, whatever it held before |
| AnsiLegacy.CSI.Text | src/ansi/ansi.hpp:38-40 | `operator()` returns the five-character introducer text |
| AnsiLegacy.SwitchStylesExample | catch2_tests/ansi/ansi_test.cpp:7-19 | octal by default, hexadecimal after `set(Hexadecimal)`, and the octal text again after `set(Octal)` |
| AnsiLegacy.EncloseAgreesWithLaterTable | src/ansi/ansi.hpp:46-61 | every legacy terminator is a letter equal to the later table's terminator, and the fourteen are distinct |
| AnsiLegacy.Enclose.Call | src/ansi/ansi.hpp:64-71 | `Enclose` returns its terminator's character |
| AnsiLegacy.EncloseExamples | catch2_tests/ansi/ansi_test.cpp:21-31 | `CSIEnclose::SGR` converts to 'm' and `Enclose{SD}` gives 'T'; a default `Enclose`, which holds `SGR` by its member initializer (src/ansi/ansi.hpp:64-65), gives 'm' |
| AnsiLegacy.CSISequencer.constructor | src/ansi/ansi.hpp:77-82 | the sequencer's `CSI` holds the introducer of the style it was built with |
| AnsiLegacy.CSISequencer.SetCUU | src/ansi/ansi.hpp:85-90 | introducer text, the decimal count and 'A'; being escaped text, it is rejected by the later validator |
| Logging.Code | src/logging/logger.hpp:19-24 | each level's value is one of 1, 2, 4 and 8 |
| Logging.CodeInjective | src/logging/logger.hpp:19-24 | distinct levels have distinct values |
| Logging.ToString | src/logging/logger.hpp:26-36 | each level's name is capitalised and at least four letters long |
| Logging.ToStringNames | catch2_tests/logging/severity_level_test.cpp:8-24 | the names are exactly "Fatal", "Warning", "Info" and "Debug" |
| Logging.ToStringInjective | src/logging/logger.hpp:26-36 | distinct levels have distinct names |
| Logging.Begin | src/logging/logger.hpp:38-41 | `Begin` is the first item of the iteration order |
| Logging.Next | src/logging/logger.hpp:43-46 | `Next(i)` is the i-th item for every index inside the array |
| Logging.IterationOrder | src/logging/logger.hpp:54-56 | iteration lists every level, runs Fatal to Debug in increasing value |
| Logging.DefaultSettings | src/logging/logger.hpp:60-69 | default settings flush after 11 messages, are enabled and print to standard output |
| Logging.Logger.constructor | src/logging/logger.hpp:116-119 | the counted base is built first, then the id is the creation count, which is at least 1; settings are the defaults |
| Logging.Logger.Set | src/logging/logger.hpp:105-108 | `set` replaces the settings as a whole |
| Logging.Logger.GetId | src/logging/logger.hpp:110-113 | `getID` returns the logger's number |
| Logging.Logger.Destroy | src/types/types.hpp:37-40 | destroying a logger releases one alive logger and keeps the creation count |
| Logging.NumberingExample | catch2_tests/logging/stdout_logger_test.cpp:46-54 | two loggers from a fresh counter are numbered 1 and 2 |
| StringLogging.AfterLastSeparator | src/logging/string_logger.hpp:125 | the file name starts after the last '/' or '\\', or at 0 when there is none |
| StringLogging.FileName | src/logging/string_logger.hpp:124-125 | the file part is a suffix of the path with no separator, preceded by a separator unless it is the whole path |
| StringLogging.FileNameOfPlainName | src/logging/string_logger.hpp:124-125 | a path without separators is its own file part |
| StringLogging.FileNameAfterDirectory | src/logging/string_logger.hpp:124-125 | a directory, a separator and a plain name give that name |
| StringLogging.LevelTag | src/logging/string_logger.hpp:123 | the header's level is the level's name upper-cased |
| StringLogging.LevelTags | src/logging/string_logger.hpp:123 | the tags are FATAL, WARNING, INFO and DEBUG |
| StringLogging.MessageHeader | src/logging/string_logger.hpp:120-134 | the header opens with the timestamp and " [", followed by the level's tag |
| StringLogging.Line | src/logging/string_logger.hpp:71-83 | the buffered `log` line is the header, then exactly the message, then a newline |
| StringLogging.ExceptionLine | src/logging/string_logger.hpp:54-67 | the buffered `exception` line opens with the Debug header and ends with the message and a newline |
| StringLogging.Trailer | src/logging/string_logger.hpp:33-44 | the destructor's closing line; `StringLogging.TrailerReadsBack` states its form |
| StringLogging.TrailerReadsBack | src/logging/string_logger.hpp:33-44 | the closing line is "~StringLogger(", a numeral and ")\n", and the numeral reads back as the flushed count |
| StringLogging.TagFollowsTimestamp | src/logging/string_logger.hpp:129-132 | the header's level tag starts two characters after the timestamp |
| StringLogging.HeaderDeterminesLevel | src/logging/string_logger.hpp:120-134 | with the same timestamp, equal headers have equal levels |
| StringLogging.Flushed | src/logging/string_logger.hpp:136-146 | a flush appends the buffer to a present target, empties the buffer and moves the buffered count into the flushed count |
| StringLogging.Increment | src/logging/string_logger.hpp:116 | `++` on the `unsigned short` count adds one below 65535 and wraps 65535 to 0 |
| StringLogging.Checked | src/logging/string_logger.hpp:148-154 | after `checkFlush` the buffered count is below the threshold or 0, no message is lost from the counts, and the target plus buffer is unchanged |
| StringLogging.Message | src/logging/string_logger.hpp:71-83 | when disabled nothing changes; when enabled the counts grow by one (with wrap-around), buffered ends below the threshold or at 0, and target plus buffer gains exactly the line |
| StringLogging.Destroyed | src/logging/string_logger.hpp:33-44 | when disabled nothing changes; when enabled the buffered count joins the flushed count, the trailer with that count closes the buffer and a present target receives the whole buffer |
| StringLogging.ConcatSplit | src/logging/string_logger.hpp:136-146 | the lines flushed so far followed by the lines still buffered are all the lines, in order |
| StringLogging.InitialAccounts | src/logging/string_logger.hpp:17-23 | a new logger has accepted no line; its target holds only the text it started with |
| StringLogging.FlushKeepsAccounts | src/logging/string_logger.hpp:136-146 | a flush keeps flushed plus buffered equal to the lines accepted and the target equal to its start text plus the flushed lines |
| StringLogging.MessageKeepsAccounts | src/logging/string_logger.hpp:54-83 | accepting a line keeps those accounts; when enabled, buffered ends below the threshold or at 0, and is 0 exactly when the threshold was reached |
| StringLogging.DestroyedDeliversAll | src/logging/string_logger.hpp:33-45 | when enabled, the destructor leaves the target as its start text, every accepted line in order, and "~StringLogger(N)" with N the lines accepted; when disabled it changes nothing |
| StringLogging.FlushAtThresholdExample | catch2_tests/logging/string_logger_test.cpp:12-29 | with threshold 2, one message stays buffered and the second flushes both to the target |
| StringLogging.DestructorExample | catch2_tests/logging/string_logger_test.cpp:68-85 | one buffered message is delivered by the destructor, followed by "~StringLogger(1)" |
| StringLogging.Target.constructor | src/logging/string_logger.hpp:21-23 | the shared target starts with the text given |
| StringLogging.StringLogger.Snapshot | src/logging/string_logger.hpp:114-117 | the logger's state is its buffer, its two counters and the target's text, if any |
| StringLogging.StringLogger.constructor | src/logging/string_logger.hpp:17-23 | an empty buffer, zero counts, the given target or none, default settings and a counted base |
| StringLogging.StringLogger.Set | src/logging/logger.hpp:105-108 | `set` changes the settings and nothing of the logger's buffer, counts or target |
| StringLogging.StringLogger.Unflushed | src/logging/string_logger.hpp:48-52 | `operator<<` writes exactly the accepted lines not yet flushed |
| StringLogging.StringLogger.Flush | src/logging/string_logger.hpp:136-146 | `flush` performs the flush transition and keeps the accounts |
| StringLogging.StringLogger.CheckFlush | src/logging/string_logger.hpp:148-154 | `checkFlush` flushes exactly when the buffered count has reached the threshold |
| StringLogging.StringLogger.OnDestructor | src/logging/string_logger.hpp:98-101 | `onDestructor` performs exactly the flush transition on the old state, keeps the accepted lines and the start text, and leaves every accepted line in a present target |
| StringLogging.StringLogger.Log | src/logging/string_logger.hpp:71-83 | when enabled, one header-and-message line is appended and counted, then the threshold is checked; when disabled nothing changes |
| StringLogging.StringLogger.Exception | src/logging/string_logger.hpp:54-68 | the same for an exception line at Debug level with the exception's type name and message |
| StringLogging.StringLogger.Fatal | src/logging/logger.hpp:85-88 | `fatal` logs the message at Fatal level: when enabled the Fatal line is the one line accepted; the start text is kept |
| StringLogging.StringLogger.Warning | src/logging/logger.hpp:90-93 | `warning` logs the message at Warning level: when enabled the Warning line is the one line accepted; the start text is kept |
| StringLogging.StringLogger.Info | src/logging/logger.hpp:95-98 | `info` logs the message at Info level: when enabled the Info line is the one line accepted; the start text is kept |
| StringLogging.StringLogger.Debug | src/logging/logger.hpp:100-103 | `debug` logs the message at Debug level: when enabled the Debug line is the one line accepted; the start text is kept |
| StringLogging.StringLogger.Destroy | src/logging/string_logger.hpp:33-45 | when enabled, a present target ends with every accepted line and the trailer; the counted base is released |
| StringLogging.DestructorScenario | catch2_tests/logging/string_logger_test.cpp:68-85 | one debug message at threshold 2 stays out of the target until the destructor appends it and "~StringLogger(1)" |
| StringLogging.DisabledScenario | catch2_tests/logging/string_logger_test.cpp:31-42 | a disabled logger leaves its target as it was, through logging and destruction |

## Left out

- The `std::regex` engine is not modelled. The language its four patterns accept is stated as a predicate and is decided by a scanner.
- SGR parameter values are not validated beyond the grammar, as in the source.
- The wall-clock timestamp, `std::experimental::source_location` and `typeid(e).name()` become parameters: a timestamp string, a `SourceLocation` value and a type-name string.
- The exception test in `catch2_tests/logging/string_logger_test.cpp:44-66` expects a line format other than the one `src/logging/string_logger.hpp:63` writes. The model follows the code.
- The printing loggers, the file and stream I/O, the wall-clock helpers, the mutex-based logger and the `IStringify` interfaces are not modelled. They route output or wrap the operating system.
- The `main.cpp` drivers are not modelled.
- `src/templates/range.hpp`, `src/templates/object_counter.hpp`, `src/types.hpp` and `src/strings/strings.hpp` repeat modelled code and have no model of their own.
- `src/facilities/strings.hpp` is not part of this model. `Strings.CheckRange` states what the validator relies on: every character of the checked text lies in the range.
- Counters and widths are modelled as follows:
  - `ObjectCounter`'s `unsigned int` statics, `Logger`'s id and the `unsigned long` flushed count are unbounded naturals;
  - sequence counts of type `std::size_t` are naturals;
  - the `unsigned short` buffered count wraps explicitly (`StringLogging.Increment`);
  - colour components and palette indices are bytes.
- Types.Length: requires left ≤ right, which every constructed `Range` has. The `unsigned` wrap of `getLength` for bounds that would overflow is not modelled, and neither are floating-point ranges.
- Types.Get, TypesRevised.Get: the `shift` argument must be 0, 1 or 2. The source reads out of bounds otherwise. The contract names the table entry the byte comes from; `Types.NamedColor` states which component each shift picks.
- Logging.Next: the position must be inside the four-item array. The source reads out of bounds otherwise.
- `SeverityLevel::End()` dereferences one past the end of the array, which is undefined, so it is not modelled.
- The `onFlush` and `onBufferedMessage` hooks are empty in `StringLogger` and are not modelled. The same goes for the `elicitStringBuffer` and `elicitFlushedMessages` accessors: `Snapshot` exposes that state.
- StringLogging.StringLogger.Destroy: the stream `clear()` and the destruction order of the `std::shared_ptr` target are not modelled. The target is one `Target` object that the logger holds a reference to.
- StringLogging.StringLogger: the model assumes the logger is the target's only writer. `Valid()` reads the target's whole text as the start text plus this logger's flushed lines, and every operation requires it. If the owner of the shared string or a second `StringLogger` on the same target appends to it, `Valid()` no longer holds and the model's operations cannot be called. The source's `log`, `flush` and destructor keep appending in that case. Writers that interleave on one target are not modelled.
- Types.Convert: only conversions that keep every value, such as `char` to `int`, are modelled, so the bounds are copied unchanged. A narrowing or signed-to-unsigned `static_cast` can wrap a bound and leave left greater than right, e.g. `Range<unsigned>(Range<int>(-1, 5))`. That is not modelled.
- Ansi.ColorsReset, Ansi.ResetColors: stated as equal to the named-colour sequence of the two defaults. Their scanned form follows from `Ansi.NamedColors`.
- `::toupper` on non-ASCII characters is not modelled. Only a to z are mapped.

## Findings

| source | as written | input that shows it | evidently intended | confidence | as-written member | corrected member |
|---|---|---|---|---|---|---|
| src/standard/ansi.hpp:384-391 | the plane code is chosen by `static_cast<bool>(type) ? FG : BG`, and `Foreground` is the first enumerator (false), so a foreground request gets code 48 and a background request 38; the facade's `setColor(uint8_t, type)` at lines 589-593 forwards to it and inherits the swap (`Ansi.AnsiSequencer.SetPaletteColor` models it as written) | `getColor(c, ColorType::Foreground, false)` for any index `c`, e.g. 1: the first parameter is 48 ("ESC[48;5;1m") | 38 ("ESC[38;5;1m"), as the 24-bit `getColor` (lines 395-407) does for the same plane | not executed | Ansi.PaletteAsWrittenSwapsPlanes | Ansi.PaletteColor |
