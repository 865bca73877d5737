# A verified model of the scheme2020 reader

scheme2020 reads Scheme source text in four stages. This project models each stage in Dafny and proves what each one promises.

1. **Character table.** A Python script, `genCharTab.py`, builds a table of 256 character classes and prints it as C initializers. The lexer compiles this table in as `s_charTab`.
2. **Lexer.** A hand-written state machine over a buffer that ends in a NUL byte. On each `advance()` it scans one token.
3. **Datum parser.** A recursive-descent parser turns the token stream into the AST. It handles:
   - `()` and `[]` lists;
   - dotted tails;
   - datum comments;
   - a nesting limit of 1024;
   - a guarded "unterminated list" report.
4. **AST.** The AST is made of cons cells, a null node and leaves. It comes with list utilities, structural equality and a pretty-printer.

The numbers in leaves are exact 64-bit integers or inexact doubles, held as their 64-bit patterns.

## Modules and their form

Each module takes the form of the code it models.

**Imperative code is modelled as imperative Dafny.**
- The generator keeps its table in an `array<seq<string>>`. `addRange`, `add` and `genTable` are methods with loops.
- The lexer is a `Lexer` class. Its field `cur` is the cursor `curCharPtr_`, and it holds a `Token` object changed through setters.
- The datum parser is a `DatumParser` class. It has `nesting`, `fatal` and the error log as fields, and its loops are the source's loops.
- `ListBuilder`, the list iterators, `listSize` and `isProperList` are classes and methods with loops.

**Each method is proved against a function of the old state.** The functions are in `CharTabGen`, `LexerSpec`, `ParserSpec` and `Ast`. The properties of those functions are then proved as lemmas.

**Pure code is modelled as datatypes, functions and lemmas.** This covers `Number`, `deepEqual`, `list(...)` and the `dump*` printers. The printers are string-valued functions.

**The lexer is modelled as written, defects included.** An iteration of `advance()` can read past the terminating NUL, or change nothing inside `for (;;)` (an endless loop). These outcomes are recorded as the statuses `Overrun` and `Hung` rather than excluded by a precondition, and the `LexerTokens` lemmas name the inputs that cause them.

Two small proofs complete the picture:
- the table the script prints evaluates, byte by byte, to the flag function `CharClass.CharFlags`;
- the lexer relies on `CharClass.CharFlags` for its class dispatch.

**The printer is modelled as written, too.** `AstDump.DumpNode` prints a symbol through `AstDump.DumpSymbolAsWritten`, the source's `dumpSymbol` with its `0x%x;` escape. The corrected printer `AstDump.DumpSymbol` stands beside it, and `AstDump.SymbolPrintersAgree` states exactly on which symbols the two differ.

**The parser is modelled over a token stream** (`ParserSpec.Stream`). Each token carries the diagnostics the lexer reported while scanning it. The error log is shared with the lexer, as the source's error manager is.

`ParserSyntax` is an independent reference grammar: well-formed datums written as tokens. Its main theorem is `ParserSyntax.ParseCorrect`: on the tokens of well-formed datums, parsing reports nothing and returns exactly their trees.

Two parser test cases are restated and proved:
- `Samples` and `ParserSamples` restate the print test and the smoke test of the parser's unit tests;
- the proofs show the parse results and the exact text the printer writes.

## Model

| member | source | states |
|---|---|---|
| Numbers.BitsValueOfExactBits | cxx/include/s2020/AST/Number.h:73-74 | storing an int64 as its 64-bit two's complement pattern and reading it back gives the same value |
| Numbers.ExactBitsOfBitsValue | cxx/include/s2020/AST/Number.h:39-42 | every 64-bit pattern is the pattern of exactly one int64, so the payload encoding is a bijection |
| Numbers.WrapNegate | cxx/lib/Parser/Lexer.cpp:368-369 | negating the unsigned payload negates the int64 value it holds, except -2^63, which maps to itself |
| Numbers.FlipSign | cxx/lib/Parser/Lexer.cpp:353-354 | negating a double flips its sign bit and leaves the other 63 bits alone |
| Numbers.DefaultNumber | cxx/include/s2020/AST/Number.h:27 | a default-constructed Number is exact with value 0 |
| Numbers.MakeExact | cxx/include/s2020/AST/ASTContext.h:24-26 | makeExactNumber(v) is exact and getExact returns v |
| Numbers.MakeInexact | cxx/include/s2020/AST/ASTContext.h:27-29 | makeInexactNumber(d) is inexact and getInexact returns d's bit pattern |
| Numbers.KindsPartition | cxx/include/s2020/AST/Number.h:32-37 | every Number is exactly one of exact and inexact |
| Numbers.EqualsIsIdentity | cxx/include/s2020/AST/Number.h:48-60 | equals holds iff the kinds match and the 64-bit payloads are identical, i.e. iff the values are the same |
| Numbers.ExactEqualsIffMadeFrom | cxx/include/s2020/AST/Number.h:62-64 | exactEquals(o) holds iff the number is exact with payload o |
| Numbers.ExactEqualsInjective | cxx/include/s2020/AST/Number.h:50-56 | two exact numbers are equal iff their integers are |
| Numbers.ExactNeverEqualsInexact | cxx/include/s2020/AST/Number.h:54-55 | an exact number never equals an inexact one, whatever the bits |
| CharClass.GetClass | cxx/lib/Parser/Lexer.cpp:36-38 | getClass is the low three bits of the flags and is at most the class mask |
| CharClass.FlagLayout | cxx/lib/Parser/Lexer.cpp:8-32 | the class values 1..5 fit in the mask; the four flag bits are outside it and pairwise disjoint |
| CharClass.ClassOf | cxx/lib/Parser/genCharTab.py:58-91 | the class a byte receives from the script's rules is one of the five class values or 0 |
| CharClass.CharTable | cxx/lib/Parser/Lexer.cpp:54-56 | s_charTab has 256 entries, the flags of each byte |
| CharClass.FlagsDecode | cxx/lib/Parser/Lexer.cpp:36-51 | getClass and the four test* accessors of a byte's flags give back its class and exactly the byte sets the script tags |
| Format.DecimalRoundTrip | cxx/lib/Parser/genCharTab.py:39 | the decimal digits the script prints read back as the index |
| CharTabGen.Slot | cxx/lib/Parser/genCharTab.py:9-10 | Python indexing of the 256-entry table: defined exactly for -256..255, negative indices counting from the end, IndexError otherwise |
| CharTabGen.EmptyTable | cxx/lib/Parser/genCharTab.py:5 | the initial table has 256 empty entries |
| CharTabGen.EmitLines | cxx/lib/Parser/genCharTab.py:37-55 | genTable prints exactly 256 lines |
| CharTabGen.Generator.constructor | cxx/lib/Parser/genCharTab.py:5 | the table is a fresh 256-entry array of empty lists |
| CharTabGen.Generator.AddSingleTag | cxx/lib/Parser/genCharTab.py:8-10 | raises exactly on an out-of-range index and then changes nothing; otherwise only entry i changes, gaining the tag unless already present |
| CharTabGen.Generator.AddTag | cxx/lib/Parser/genCharTab.py:13-18 | a tuple tag is applied constituent by constituent, recursively; the table after is the reference TagAt, or unchanged on IndexError |
| CharTabGen.Generator.AddRange | cxx/lib/Parser/genCharTab.py:21-27 | the table and success flag after addRange(t, a, b) match the reference RangeSpec over range(ord(a), ord(b)+1) |
| CharTabGen.Generator.Add | cxx/lib/Parser/genCharTab.py:30-34 | the table and success flag after add(t, *elems) match the reference PointsSpec, with characters converted by ord |
| CharTabGen.Generator.GenTable | cxx/lib/Parser/genCharTab.py:37-55 | prints EmitLines of the table and leaves every entry sorted in place |
| CharTabGen.Generator.ConfigureInitial | cxx/lib/Parser/genCharTab.py:70-73 | the initial-character rules succeed and give the reference table |
| CharTabGen.Generator.ConfigureSubsequent | cxx/lib/Parser/genCharTab.py:75-80 | the subsequent-character rules succeed and give the reference table |
| CharTabGen.Generator.ConfigureSigns | cxx/lib/Parser/genCharTab.py:82-86 | the whitespace, peculiar and sign rules succeed and give the reference table |
| CharTabGen.Generator.ConfigureRest | cxx/lib/Parser/genCharTab.py:88-91 | the digit, delimiter and UTF-8 rules succeed and give the reference table |
| CharTabGen.Generator.Configure | cxx/lib/Parser/genCharTab.py:70-91 | all rule statements of the script run without error and leave Configured(old table) |
| CharTabGen.GenerateCharTab | cxx/lib/Parser/genCharTab.py:5-93 | the whole script prints EmitLines(Configured(EmptyTable())) |
| CharTabGen.ApplyRulesAppend | cxx/lib/Parser/genCharTab.py:70-91 | running two blocks of rules one after the other is running their concatenation, a failure in the first skipping the second |
| CharTabGen.RulesInBounds | cxx/lib/Parser/genCharTab.py:70-91 | every point and range end in the script's rules lies within 0..255 |
| CharTabGen.PointsInBoundsSucceeds | cxx/lib/Parser/genCharTab.py:30-34 | add over in-bounds points never raises |
| CharTabGen.RangeInBoundsSucceeds | cxx/lib/Parser/genCharTab.py:21-27 | addRange over in-bounds ends never raises |
| CharTabProps.InsertAllFacts | cxx/lib/Parser/genCharTab.py:8-10 | inserting names keeps the old entry as a prefix, adds exactly the missing names, and never creates a duplicate |
| CharTabProps.InsertAllPresent | cxx/lib/Parser/genCharTab.py:8-10 | inserting names that are all present leaves the entry unchanged |
| CharTabProps.ApplyTagIdempotent | cxx/lib/Parser/genCharTab.py:13-18 | applying a tag twice to a byte is applying it once |
| CharTabProps.ApplyTagFacts | cxx/lib/Parser/genCharTab.py:13-18 | after addTag a byte holds its old names plus exactly the names the tag stands for, without duplicates |
| CharTabProps.TupleIsParts | cxx/lib/Parser/genCharTab.py:13-18 | a tuple tag equals applying each constituent in order |
| CharTabProps.TupleAtoms | cxx/lib/Parser/genCharTab.py:60-66 | SIGN_SUBSEQUENT, INITIAL and WHITESPACE stand for their listed names, in order |
| CharTabProps.InitialExpansion | cxx/lib/Parser/genCharTab.py:65-66 | INITIAL on an empty entry adds InitialClass, SignSubsequent and DotSubsequent |
| CharTabProps.RangeEffect | cxx/lib/Parser/genCharTab.py:21-27 | an in-bounds addRange applies the tag to exactly the bytes lo..hi and leaves every other byte alone; an inverted range touches nothing |
| CharTabProps.LowercaseRange | cxx/lib/Parser/genCharTab.py:21-27 | addRange(t, 'a', 'z') tags 97..122 and leaves 96 and 123 alone |
| CharTabProps.PointsEffect | cxx/lib/Parser/genCharTab.py:30-34 | an in-bounds add applies the tag to exactly the listed bytes |
| CharTabProps.IndexErrorLeavesTable | cxx/lib/Parser/genCharTab.py:30-34 | a point past the end raises before anything changes |
| CharTabProps.SortStringsCorrect | cxx/lib/Parser/genCharTab.py:47 | list.sort() gives an ordered permutation of the entry |
| CharTabProps.SplitJoin | cxx/lib/Parser/genCharTab.py:46-55 | the printed expression, split at its bar separators, gives back the sorted names |
| CharTabProps.LineHeadLayout | cxx/lib/Parser/genCharTab.py:39-44 | each line starts with an 18-character comment holding the %3d index and the annotation (0x%02x or the quoted character) |
| CharTabProps.PaddedDecimal | cxx/lib/Parser/genCharTab.py:39 | the %3d field is spaces followed by the digits of the index |
| CharTabProps.EmittedLine | cxx/lib/Parser/genCharTab.py:37-55 | line i carries index i, then the expression of entry i (the sorted names or 0), then "," |
| CharTabProps.FirstLine | cxx/lib/Parser/genCharTab.py:37-55 | an entry without tags prints as 0 |
| CharTabConfig.RuleEffect | cxx/lib/Parser/genCharTab.py:21-34 | one in-bounds rule adds to each byte exactly the names it contributes there |
| CharTabConfig.RulesEffect | cxx/lib/Parser/genCharTab.py:70-91 | in-bounds rules succeed, each byte then holds its old names plus exactly the names the rules give it, and no duplicates appear |
| CharTabConfig.AtomSets | cxx/lib/Parser/genCharTab.py:58-68 | the name sets of the nine tag constants |
| CharTabConfig.InitialNames | cxx/lib/Parser/genCharTab.py:70-73 | the initial rules give the initial bytes the initial class and both sign/dot flags, and other bytes nothing |
| CharTabConfig.SubsequentNames | cxx/lib/Parser/genCharTab.py:75-80 | the subsequent rules give Subsequent to exactly the subsequent bytes |
| CharTabConfig.SignNames | cxx/lib/Parser/genCharTab.py:82-86 | the names lines 82-86 give each byte |
| CharTabConfig.LastNames | cxx/lib/Parser/genCharTab.py:88-91 | the names lines 88-91 give each byte |
| CharTabConfig.ConfiguredNames | cxx/lib/Parser/genCharTab.py:70-91 | the rules together give each byte exactly the names whose enumerators or to CharFlags |
| CharTabConfig.ConfiguredTable | cxx/lib/Parser/genCharTab.py:58-91 | each byte of the configured table holds exactly its reference names, each once |
| CharTabConfig.SingleClass | cxx/lib/Parser/genCharTab.py:58-91 | no byte of the configured table carries two different *Class names |
| CharTabConfig.ImpliedFlags | cxx/lib/Parser/genCharTab.py:60-82 | every byte tagged InitialClass is also Subsequent, and every whitespace byte is also a Delimiter |
| CharTabConfig.EvalOrIsOrOfSet | cxx/lib/Parser/genCharTab.py:46-55 | the value of an emitted expression depends only on the set of names in it |
| CharTabConfig.EmittedFlags | cxx/lib/Parser/genCharTab.py:37-93 | the line printed for byte b evaluates, as a C initializer, to CharFlags(b) |
| CharTabConfig.ScriptOutput | cxx/lib/Parser/Lexer.cpp:54-56 | the table the script prints is the table the lexer uses |
| Diagnostics.DiagnosticLog.Report | cxx/lib/Parser/Lexer.cpp:406-408 | a report appends one message to the shared log |
| LexerSpec.ExponentMarkerByCase | cxx/lib/Parser/Lexer.cpp:292 | or-ing the byte with 32 and comparing with 'e' accepts exactly 'e' and 'E' |
| LexerSpec.RunEnd | cxx/lib/Parser/Lexer.cpp:98-100 | a scanning loop stops at the first byte outside its run, and every byte before it is inside |
| LexerSpec.DelimiterScan | cxx/lib/Parser/Lexer.cpp:267-271 | the slow path stops at the first delimiter or at the terminator |
| LexerSpec.Error | cxx/lib/Parser/Lexer.cpp:406-420 | error appends the diagnostic and moves the cursor to the end exactly when the limit is reached |
| LexerSpec.ScanNumber | cxx/lib/Parser/Lexer.cpp:284-311 | the digits, fraction and exponent scan ends inside the buffer; without a fraction it ends where the digit run ends |
| LexerSpec.ScanExponent | cxx/lib/Parser/Lexer.cpp:313-329 | an exponent with digits ends after at least one of them and marks the number as real; otherwise the exponent is missing at a position after the marker |
| LexerSpec.ExactResult | cxx/lib/Parser/Lexer.cpp:357-370 | an exact value in range gets its int64 pattern, and a negated one down to -2^63 gets the pattern of -v |
| LexerSpec.FlagsClass | cxx/lib/Parser/Lexer.cpp:90-248 | the classes 1..4 in chFlags always belong to the byte under the cursor, even though the UTF-8 and NUL branches do not reload chFlags |
| LexerSpec.Step | cxx/lib/Parser/Lexer.cpp:92-248 | an iteration of advance()'s loop that does not finish a token strictly advances the cursor and leaves a valid chFlags |
| LexerSpec.OtherStep | cxx/lib/Parser/Lexer.cpp:198-247 | the same for the default arm of the class switch |
| Lexer.Token.constructor | cxx/include/s2020/Parser/Lexer.h:89-90 | a fresh token has kind none, an empty range and the default number |
| Lexer.Token.InputStr | cxx/include/s2020/Parser/Lexer.h:53-57 | the token's text is the end - start bytes of its range |
| Lexer.Token.GetNumber | cxx/include/s2020/Parser/Lexer.h:59-62 | requires kind number and returns the stored number |
| Lexer.Token.GetIdentifier | cxx/include/s2020/Parser/Lexer.h:64-67 | requires kind identifier and returns the stored name |
| Lexer.Token.SetStart | cxx/include/s2020/Parser/Lexer.h:70-72 | changes only the start |
| Lexer.Token.SetEnd | cxx/include/s2020/Parser/Lexer.h:73-75 | changes only the end |
| Lexer.Token.SetIdentifier | cxx/include/s2020/Parser/Lexer.h:76-79 | sets the kind to identifier and the name, nothing else |
| Lexer.Token.SetNumber | cxx/include/s2020/Parser/Lexer.h:80-83 | sets the kind to number and the number, nothing else |
| Lexer.Token.SetKind | cxx/include/s2020/Parser/Lexer.h:84-86 | changes only the kind |
| Lexer.Lexer.constructor | cxx/lib/Parser/Lexer.cpp:73-85 | the cursor is at the buffer start, the token is fresh and the log is the shared one |
| Lexer.Lexer.ForceEOF | cxx/include/s2020/Parser/Lexer.h:110-112 | puts the cursor on the terminator and changes nothing else |
| Lexer.Lexer.Error | cxx/lib/Parser/Lexer.cpp:406-420 | reports, forces EOF once the limit is reached, and returns false exactly then |
| Lexer.Lexer.ScanRun | cxx/lib/Parser/Lexer.cpp:98-100 | the scanning loop returns RunEnd |
| Lexer.Lexer.SkipUntilDelimiter | cxx/lib/Parser/Lexer.cpp:252-257 | the new state is the reference SkipUntilDelimiter of the old one |
| Lexer.Lexer.SkipUntilDelimiterSlowPath | cxx/lib/Parser/Lexer.cpp:259-272 | reports "delimiter expected" and scans to the next delimiter, as in the reference |
| Lexer.Lexer.ScanNumberDigits | cxx/lib/Parser/Lexer.cpp:281-311 | the goto-driven digit scan returns the reference ScanNumber |
| Lexer.Lexer.ScanExponentDigits | cxx/lib/Parser/Lexer.cpp:313-330 | the exponent scan returns the reference ScanExponent |
| Lexer.Lexer.ParseNumberDigits | cxx/lib/Parser/Lexer.cpp:274-382 | parseNumberDigits for radix 10 leaves the reference state, error paths included |
| Lexer.Lexer.FinishNumber | cxx/lib/Parser/Lexer.cpp:338-381 | the end label sets the exact or inexact number, or reports real-as-exact or overflow, as in the reference |
| Lexer.Lexer.SkipLineComment | cxx/lib/Parser/Lexer.cpp:384-404 | the cursor moves to the comment's end as the source computes it, an overrun when no newline follows |
| Lexer.Lexer.FinishIdentifier | cxx/lib/Parser/Lexer.cpp:110-115 | records the identifier [cur, end) and skips to a delimiter |
| Lexer.Lexer.LexInitial | cxx/lib/Parser/Lexer.cpp:103-117 | the InitialClass case matches the reference |
| Lexer.Lexer.LexPeculiar | cxx/lib/Parser/Lexer.cpp:119-184 | the PeculiarIdentClass case matches the reference |
| Lexer.Lexer.LexDot | cxx/lib/Parser/Lexer.cpp:123-141 | '.' gives a period, a number or an identifier, as in the reference |
| Lexer.Lexer.LexSign | cxx/lib/Parser/Lexer.cpp:142-175 | '+' or '-' gives a signed number or an identifier, as in the reference |
| Lexer.Lexer.LexSignDot | cxx/lib/Parser/Lexer.cpp:146-162 | a sign followed by '.' matches the reference |
| Lexer.Lexer.SkipWhitespace | cxx/lib/Parser/Lexer.cpp:96-101 | the cursor moves past the whole whitespace run and the flags of the byte there are returned |
| Lexer.Lexer.SkipUtf8 | cxx/lib/Parser/Lexer.cpp:191-196 | reports "unsupported character" and skips the UTF-8 bytes, keeping the stale flags |
| Lexer.Lexer.Iterate | cxx/lib/Parser/Lexer.cpp:95-248 | one iteration of the for (;;) loop is the reference Step |
| Lexer.Lexer.IterateOther | cxx/lib/Parser/Lexer.cpp:198-247 | the default arm is the reference OtherStep |
| Lexer.Lexer.Advance | cxx/lib/Parser/Lexer.cpp:89-250 | advance() leaves the reference Advance of the old state |
| LexerProps.CharTableShape | cxx/lib/Parser/Lexer.cpp:54-60 | the generated table covers all bytes and gives NUL no flags, which the lexer relies on |
| LexerProps.SkipFacts | cxx/lib/Parser/Lexer.cpp:252-272 | skipUntilDelimiter keeps the token, stops at a delimiter or the end, and reports exactly one error iff it did not start at either |
| LexerProps.FinishIdentifierSound | cxx/lib/Parser/Lexer.cpp:110-115 | a finished identifier is sound: its text is its source range |
| LexerProps.NumberSound | cxx/lib/Parser/Lexer.cpp:274-382 | a finished number token is sound and has kind number |
| LexerProps.FinishNumberSound | cxx/lib/Parser/Lexer.cpp:338-381 | the end label leaves a sound number token |
| LexerProps.PeculiarSound | cxx/lib/Parser/Lexer.cpp:119-184 | the peculiar case leaves a sound token |
| LexerProps.SignSound | cxx/lib/Parser/Lexer.cpp:142-183 | the sign cases leave a sound token |
| LexerProps.InitialSound | cxx/lib/Parser/Lexer.cpp:103-116 | the initial case leaves a sound token |
| LexerProps.OtherSound | cxx/lib/Parser/Lexer.cpp:198-247 | the default arm leaves a sound token or a later cursor to continue from |
| LexerProps.StepSound | cxx/lib/Parser/Lexer.cpp:92-248 | each iteration ends a sound token or continues from a later cursor |
| LexerProps.LoopSound | cxx/lib/Parser/Lexer.cpp:92-249 | the loop ends in a sound token or in one of the two as-written failure statuses |
| LexerProps.AdvanceSound | cxx/lib/Parser/Lexer.cpp:89-250 | advance() never moves back nor takes back an error; a completed token lies between the old and the new cursor, eof only at the terminator |
| LexerTokens.OtherClass | cxx/lib/Parser/Lexer.cpp:198-244 | the punctuation bytes, ',' and ';' have class 0 in the generated table, so the default arm handles them |
| LexerTokens.AtEnd | cxx/lib/Parser/Lexer.cpp:230-236 | at the terminator advance() gives an eof token with an empty range and does not move |
| LexerTokens.EofRepeats | cxx/lib/Parser/Lexer.cpp:230-236 | once at the end, every further advance() gives the same eof token |
| LexerTokens.WhitespaceSkipped | cxx/lib/Parser/Lexer.cpp:96-101 | advance() at whitespace is advance() from the next byte |
| LexerTokens.PunctToken | cxx/lib/Parser/Lexer.cpp:199-215 | each of ( ) [ ] { } ' ` gives its one-byte token |
| LexerTokens.CommaTokens | cxx/lib/Parser/Lexer.cpp:217-227 | ',' gives comma (one byte), or comma_at (two bytes) when '@' follows |
| LexerTokens.AdvanceDispatch | cxx/lib/Parser/Lexer.cpp:95-189 | advance() at a byte of class 2..4 is the switch case for that class |
| LexerTokens.IdentifierToken | cxx/lib/Parser/Lexer.cpp:103-116 | an identifier extends over the subsequent bytes, and the cursor ends on the first byte that is not one |
| LexerTokens.ExactDigits | cxx/lib/Parser/Lexer.cpp:284-298 | a digit run not followed by '.' or an exponent gives an exact number of its value, wrapped to 64 bits and negated for '-' |
| LexerTokens.DecimalToken | cxx/lib/Parser/Lexer.cpp:186-189 | advance() at a digit run gives that exact number |
| LexerTokens.ExactValue | cxx/lib/Parser/Lexer.cpp:357-370 | the stored payload is the value modulo 2^64: exact below 2^63, the wrapped negative int64 from 2^63 to 2^64 |
| LexerTokens.NegativeDecimal | cxx/lib/Parser/Lexer.cpp:167-171 | '-' followed by digits gives the negated exact number, down to -2^63 |
| LexerTokens.SignedDigits | cxx/lib/Parser/Lexer.cpp:167-171 | '-' followed by a digit parses the number with sign -1 |
| LexerTokens.RealToken | cxx/lib/Parser/Lexer.cpp:288-311 | digits with a fraction give an inexact number: the double of the token's text |
| LexerTokens.MissingExponentToken | cxx/lib/Parser/Lexer.cpp:313-329 | "1e" reports "invalid number: missing exponent" and gives inexact 0.0 |
| LexerTokens.SkipKeeps | cxx/lib/Parser/Lexer.cpp:252-272 | skipUntilDelimiter keeps the token and only appends to the log |
| LexerTokens.CommentSkipped | cxx/lib/Parser/Lexer.cpp:241-244 | a comment ending in a newline is skipped and advance() continues after it |
| LexerTokens.CommentRunsOff | cxx/lib/Parser/Lexer.cpp:387-401 | without CR or LF, the comment loop only stops past the buffer, because it compares the cursor rather than the scan pointer with the end |
| LexerTokens.CommentWithoutNewlineOverruns | cxx/lib/Parser/Lexer.cpp:384-404 | as written, a final comment without a newline reads past the terminator |
| LexerSpec.CommentEndIntended | cxx/lib/Parser/Lexer.cpp:384-404 | as evidently intended, the comment ends just past its first CR or LF, or at the terminating NUL when none follows, and never past it |
| LexerTokens.CommentEndAgrees | cxx/lib/Parser/Lexer.cpp:387-401 | when a CR or LF follows, the loop as written ends where the intended loop ends |
| LexerTokens.CommentEndDiverges | cxx/lib/Parser/Lexer.cpp:394-396 | without a CR or LF, the loop as written ends past the terminator, the intended loop at it |
| LexerTokens.CommentOverrunExample | cxx/lib/Parser/Lexer.cpp:394-396 | for the buffer ";a" and its NUL, the loop as written ends at 3, past the NUL at 2, where the intended loop ends |
| LexerTokens.StaleUtf8Flags | cxx/lib/Parser/Lexer.cpp:191-196 | with UTF-8-class flags, the loop never reloads them and runs off the buffer |
| LexerTokens.Utf8Overruns | cxx/lib/Parser/Lexer.cpp:191-196 | as written, any byte of 128 or more makes advance() read past the terminator |
| LexerTokens.UnhandledByteHangs | cxx/lib/Parser/Lexer.cpp:198-247 | a class-0 byte the default arm does not handle changes nothing, so for (;;) never ends |
| LexerTokens.UnhandledBytes | cxx/lib/Parser/Lexer.cpp:198-247 | the double quote, '#', the bar and the backslash are such bytes |
| LexerTokens.StrayNulHangs | cxx/lib/Parser/Lexer.cpp:230-239 | a NUL before the end is reported, but the stale flags make the next byte hang when the default arm does not handle it |
| LexerTokens.SkipAtLimitOverruns | cxx/lib/Parser/Lexer.cpp:259-272 | when "delimiter expected" reaches the error limit, forceEOF is followed by further scanning past the terminator |
| Ast.KindOf | cxx/include/s2020/AST/AST.h:104-106 | classof: a node's kind is K iff it is a node of K |
| Ast.Cons | cxx/include/s2020/AST/AST.h:156 | cons(a, b) is a pair with car a and cdr b |
| Ast.List | cxx/include/s2020/AST/AST.h:159-165 | list(...) is a list, and it is Null iff it has no elements |
| Ast.HeadTail | cxx/include/s2020/AST/AST.h:288-297 | a non-empty list is the pair of listHead and listTail, and its elements are the head followed by the tail's |
| Ast.ListContents | cxx/include/s2020/AST/AST.h:159-165 | list(a1..ak) has exactly a1..ak in order and ends in Null |
| Ast.ListWithTailContents | cxx/lib/AST/AST.cpp:57-66 | a spine of elements xs with a non-pair tail t has elements xs and last cdr t |
| Ast.SpineDecomposition | cxx/lib/AST/AST.cpp:57-66 | every node is its elements followed by its last cdr |
| Ast.ProperIffList | cxx/lib/AST/AST.cpp:57-66 | a node is a proper list iff it is list(...) of its elements |
| Ast.ImproperSize | cxx/lib/AST/AST.cpp:47-55 | (1 2 3 . 4) has three elements and is not proper |
| Ast.AsPair | cxx/include/s2020/AST/AST.h:210 | dyn_cast<PairNode>: the node itself iff it is a pair |
| Ast.ListIterator.constructor | cxx/include/s2020/AST/AST.h:210-212 | the iterator starts at the list's first pair, or at the end |
| Ast.ListIterator.Current | cxx/include/s2020/AST/AST.h:228-231 | operator* is the next remaining element |
| Ast.ListIterator.Next | cxx/include/s2020/AST/AST.h:222-226 | operator++ moves to the cdr if it is a pair and drops one remaining element, so an improper tail is never yielded |
| Ast.ListPairIterator.constructor | cxx/include/s2020/AST/AST.h:243-246 | starts at the list's first pair, or at the end |
| Ast.ListPairIterator.Current | cxx/include/s2020/AST/AST.h:262-265 | yields a pair |
| Ast.ListPairIterator.Next | cxx/include/s2020/AST/AST.h:256-260 | moves to the cdr if it is a pair, one pair fewer remaining |
| Ast.CollectElements | cxx/include/s2020/AST/AST.h:275-277 | iterating make_range(list) yields exactly the list's elements |
| Ast.ListSize | cxx/lib/AST/AST.cpp:47-55 | listSize counts the pairs of the spine, ignoring an improper tail |
| Ast.IsProperList | cxx/lib/AST/AST.cpp:57-66 | isProperList is true for Null, and for a pair iff the last cdr is Null |
| Ast.ListBuilder.constructor | cxx/include/s2020/AST/AST.h:173 | a new builder is empty |
| Ast.ListBuilder.Append | cxx/include/s2020/AST/AST.h:175-190 | append adds the node at the end of the built elements |
| Ast.ListBuilder.FinishList | cxx/lib/AST/AST.cpp:27-45 | returns the proper list of the appended nodes (Null for none) and resets the builder |
| Ast.DeepEqualIsEquality | cxx/lib/AST/AST.cpp:87-107 | deepEqual holds iff the two trees are equal: different kinds give false, Null equals Null, and pairs compare car then cdr |
| AstDump.Text | cxx/lib/AST/AST.cpp:180 | bytes written to the stream become the same code points |
| AstDump.Bytes | cxx/lib/AST/AST.cpp:180 | an ASCII string's bytes are written back as that string |
| AstDump.SignedDecimal | cxx/lib/AST/AST.cpp:213-215 | an int64 prints as a minus sign iff negative, then the decimal digits of its absolute value |
| AstDump.DumpBoolean | cxx/lib/AST/AST.cpp:208-211 | booleans print as #t or #f |
| AstDump.DumpNull | cxx/lib/AST/AST.cpp:231-233 | Null prints as () |
| AstDump.DumpCharacter | cxx/lib/AST/AST.cpp:111-130 | #\ then the name, the printable character itself, or 0x and its code |
| AstDump.DumpString | cxx/lib/AST/AST.cpp:216-222 | the escaped contents between double quotes |
| AstDump.SignedChar | cxx/lib/AST/AST.cpp:138-140 | on a target where plain char is signed (x86-64; AArch64 Linux has an unsigned char), bytes of 128 and more read as negative |
| AstDump.SignedTestIsNeedsEscape | cxx/lib/AST/AST.cpp:138-144 | the first loop's test (at most 32, at least 127, bar or backslash) on a signed char picks exactly the bytes that need quoting |
| AstDump.ScanEscaping | cxx/lib/AST/AST.cpp:136-144 | the first loop of dumpSymbol decides whether the symbol is bar-quoted |
| AstDump.EscapeOneAsWritten | cxx/lib/AST/AST.cpp:174 | as written, the byte 1 prints as 0x1; without a backslash |
| AstDump.DumpOneOneAsWritten | cxx/lib/AST/AST.cpp:145-178 | as written, the symbol of bytes 1 1 prints 0x1;0x1; between bars |
| AstDump.DumpSpelledOneAsWritten | cxx/lib/AST/AST.cpp:145-178 | as written, the symbol "0x1;" followed by byte 1 prints the same |
| AstDump.AsWrittenCollides | cxx/lib/AST/AST.cpp:145-178 | as written, two different symbols print alike |
| AstDump.HexOfMinus128 | cxx/lib/AST/AST.cpp:174 | %x of -128 promoted to unsigned is ffffff80 |
| AstDump.EscapeHighAsWritten | cxx/lib/AST/AST.cpp:174 | as written, the byte 0x80 prints as 0xffffff80; |
| AstDump.AsWrittenSignExtends | cxx/lib/AST/AST.cpp:133-182 | as written, a byte above 127 prints as a sign-extended 32-bit pattern |
| AstDump.EscapeByte | cxx/lib/AST/AST.cpp:148-176 | an escaped byte never prints as a bare bar, so it cannot close the quoting |
| AstDump.HexRoundTrip | cxx/lib/AST/AST.cpp:174 | %x prints hexadecimal digits that read back as the number |
| AstDump.ReadEscapeByte | cxx/lib/AST/AST.cpp:148-176 | reading one escaped byte consumes exactly what was written for it |
| AstDump.ReadEscaped | cxx/lib/AST/AST.cpp:145-178 | the inside of the bars reads back as the symbol |
| AstDump.DumpSymbolRoundTrip | cxx/lib/AST/AST.cpp:133-182 | with the R7RS \x escape, what dumpSymbol prints reads back as the symbol |
| AstDump.DumpSymbolInjective | cxx/lib/AST/AST.cpp:133-182 | with that escape, two symbols print alike iff they are equal |
| AstDump.NeedsEscape | cxx/lib/AST/AST.cpp:140 | a byte forces bar quoting iff it is not a printable ASCII character other than space, or it is a bar or a backslash |
| AstDump.NeedsBars | cxx/lib/AST/AST.cpp:136-144 | a symbol is printed without bars iff every byte is printable ASCII other than space, bar and backslash |
| AstDump.EscapedAsWritten | cxx/lib/AST/AST.cpp:147-177 | as written, every byte writes at least one character, and only the empty symbol writes nothing |
| AstDump.DumpSymbolAsWritten | cxx/lib/AST/AST.cpp:133-182 | as written, a symbol without special bytes prints as its bytes, and otherwise as its escaped bytes between two bars |
| AstDump.Escaped | cxx/lib/AST/AST.cpp:147-177 | with the R7RS escape, every byte writes at least one character and the text never starts with a bare bar |
| AstDump.DumpSymbol | cxx/lib/AST/AST.cpp:133-182 | with the R7RS escape, a symbol without special bytes prints as its bytes, and otherwise as its escaped bytes between two bars |
| AstDump.ReadBody | cxx/lib/AST/AST.cpp:145-178 | reading the text inside the bars yields fewer bytes than characters and needs the closing bar at the end: the inverse that ReadEscaped pairs with the printer |
| AstDump.ReadSymbol | cxx/lib/AST/AST.cpp:179-181 | a text without a leading bar reads back byte for byte exactly when each character fits in a byte |
| AstDump.EscapeByteAgrees | cxx/lib/AST/AST.cpp:170-175 | the two escapes write a byte alike iff it is not hex-escaped, that is neither named nor printable |
| AstDump.EscapedAgrees | cxx/lib/AST/AST.cpp:147-177 | without a hex-escaped byte, the escaped texts of the two printers are equal |
| AstDump.EscapedDiffer | cxx/lib/AST/AST.cpp:174 | one hex-escaped byte makes the escaped texts differ |
| AstDump.SymbolPrintersAgree | cxx/lib/AST/AST.cpp:133-182 | dumpSymbol as written and the R7RS printer print a symbol alike iff none of its bytes is hex-escaped |
| AstDump.DumpNumber | cxx/lib/AST/AST.cpp:212-215 | an exact number prints a minus sign iff negative, then digits that read back as its magnitude; an inexact one prints the double printer's text |
| AstDump.DumpNode | cxx/lib/AST/AST.cpp:235-245 | the dispatch on the node kind: a symbol prints through dumpSymbol as written (not the R7RS escape), and Null prints as () |
| AstDump.DumpListShape | cxx/lib/AST/AST.cpp:188-206 | dumpPair prints between "(" and ")"; the text after the car (the DumpRest loop) is empty iff the cdr is Null, starts with a newline for a further pair and with " . " for an improper tail |
| AstDump.Dump | cxx/lib/AST/AST.cpp:247-250 | the node printed at indentation 0, followed by exactly one newline |
| AstDump.Indent | cxx/lib/AST/AST.cpp:184-186 | dumpIndent writes 4 * indent characters |
| AstDump.DumpRestLayout | cxx/lib/AST/AST.cpp:193-203 | the loop over the cdrs prints each further element on a new line, then " . x" for an improper tail |
| AstDump.DumpPairLayout | cxx/lib/AST/AST.cpp:188-206 | dumpPair prints "(", the car, each further element on a new line indented 4*(indent+1) spaces, " . x" for a non-Null tail, then ")" |
| AstDump.ProperListLayout | cxx/lib/AST/AST.cpp:188-206 | a proper list prints one element per line with no dotted tail |
| Samples.Sym | cxx/unittests/Parser/DatumParserTest.cpp:87 | the test's Sym(t) is the symbol spelled t |
| Samples.N | cxx/unittests/Parser/DatumParserTest.cpp:88 | the test's Num(v) is the exact number v |
| Samples.DumpPlain | cxx/lib/AST/AST.cpp:179-181 | a symbol without special bytes prints as its spelling |
| Samples.DumpExact | cxx/lib/AST/AST.cpp:213-215 | an exact number prints as its signed decimal value |
| Samples.SmokeElements | cxx/unittests/Parser/DatumParserTest.cpp:85-101 | the smoke test's tree is the list of the seven datums |
| Samples.PrintTestHead | cxx/unittests/Parser/DatumParserTest.cpp:48-54 | the first four datums dump as hello, 10, (list -10 more) and (a . b) in the expected layout |
| Samples.PrintTestTail | cxx/unittests/Parser/DatumParserTest.cpp:55-68 | the last three datums dump in the expected layout |
| Samples.PrintTest | cxx/unittests/Parser/DatumParserTest.cpp:43-69 | dumping each of the seven datums in order writes exactly the expected text |
| ParserSpec.Arrive | cxx/lib/Parser/DatumParser.cpp:18 | when a token becomes current, the errors reported while scanning it are appended to the log |
| ParserSpec.Advance | cxx/lib/Parser/Lexer.cpp:89-250 | lex_.advance() consumes one token, stays at eof at the end, and only appends to the log |
| ParserSpec.Report | cxx/lib/Parser/Lexer.cpp:406-412 | lex_.error appends one message at the current token, and forces EOF once the limit is reached |
| ParserSpec.Start | cxx/lib/Parser/DatumParser.cpp:14-19 | the constructor scans the first token; fatal_ is clear |
| ParserSpec.TooDeep | cxx/lib/Parser/DatumParser.cpp:68-75 | CHECK_NESTING's failure reports "too many nested expressions", sets fatal_ and returns nullptr |
| ParserSpec.Unterminated | cxx/lib/Parser/DatumParser.cpp:228-234 | reportUnterminated returns nullptr with fatal_ set, and reports nothing when fatal_ was already set |
| ParserSpec.ParseDatum | cxx/lib/Parser/DatumParser.cpp:95-128 | parseDatum never un-consumes tokens and consumes at least one when it returns a datum |
| ParserSpec.DatumLoop | cxx/lib/Parser/DatumParser.cpp:98-127 | the same for the for (;;) loop of parseDatum |
| ParserSpec.ParseList | cxx/lib/Parser/DatumParser.cpp:140-235 | the same for parseList |
| ParserSpec.SkipComments | cxx/lib/Parser/DatumParser.cpp:130-138 | skipDatumComments never un-consumes tokens |
| ParserSpec.ListLoop | cxx/lib/Parser/DatumParser.cpp:170-209 | the list loop never un-consumes tokens |
| ParserSpec.DottedTail | cxx/lib/Parser/DatumParser.cpp:171-195 | the dotted tail never un-consumes tokens |
| ParserSpec.SkipToClose | cxx/lib/Parser/DatumParser.cpp:188-192 | the recovery loop stops, unless a datum failed, at eof or at the closer |
| ParserSpec.TopLoop | cxx/lib/Parser/DatumParser.cpp:84-86 | the top-level loop keeps the datums it has collected and appends to them |
| ParserSpec.ParseDatumLog | cxx/lib/Parser/DatumParser.cpp:95-128 | parseDatum only appends to the log and never clears fatal_; fatal_ is unchanged when a datum is returned |
| ParserSpec.DatumLoopLog | cxx/lib/Parser/DatumParser.cpp:98-127 | the same for parseDatum's loop |
| ParserSpec.DatumCommentLog | cxx/lib/Parser/DatumParser.cpp:103-108 | the same past a datum comment |
| ParserSpec.ParseListLog | cxx/lib/Parser/DatumParser.cpp:140-235 | the same for parseList |
| ParserSpec.SkipCommentsLog | cxx/lib/Parser/DatumParser.cpp:130-138 | skipDatumComments only appends, and leaves fatal_ as it was when it does not stop |
| ParserSpec.ListLoopLog | cxx/lib/Parser/DatumParser.cpp:170-209 | the list loop only appends to the log |
| ParserSpec.DottedTailLog | cxx/lib/Parser/DatumParser.cpp:171-195 | the dotted tail only appends to the log |
| ParserSpec.SkipToCloseLog | cxx/lib/Parser/DatumParser.cpp:188-192 | the recovery loop only appends to the log |
| ParserSpec.TopLoopLog | cxx/lib/Parser/DatumParser.cpp:85-86 | the top-level loop only appends to the log |
| ParserSpec.ParseAsWritten | cxx/lib/Parser/DatumParser.cpp:77-93 | as written, the result is present iff the limit was not reached after the first token and no error followed it |
| ParserSpec.Parse | cxx/lib/Parser/DatumParser.cpp:77-93 | the result is present iff the limit was not reached and no error at all was reported, and it is then a proper list |
| ParserSpec.ParseAgreesWithoutFirstTokenErrors | cxx/lib/Parser/DatumParser.cpp:14-19 | when the first token carries no diagnostic, the corrected parse and the parse as written give the same log and result |
| ParserSpec.FirstTokenErrorFails | cxx/lib/Parser/DatumParser.cpp:77-93 | a diagnostic on the first token makes the corrected parse return no result |
| ParserSyntax.Elems | cxx/lib/Parser/DatumParser.cpp:170-209 | the first k elements of a form, as the list loop collects them |
| ParserSyntax.AdvanceClean | cxx/lib/Parser/DatumParser.cpp:33 | on a stream without lexical errors, advance() moves one token further |
| ParserSyntax.FirstToken | cxx/lib/Parser/DatumParser.cpp:110-120 | a well-formed datum starts with a number, an identifier or an opener |
| ParserSyntax.ParseDatumLeaf | cxx/lib/Parser/DatumParser.cpp:110-115 | a number or identifier token becomes a Number or Symbol leaf and consumes exactly one token |
| ParserSyntax.ParseDatumForm | cxx/lib/Parser/DatumParser.cpp:117-120 | ( is parsed as a list closed by ), and [ as one closed by ] |
| ParserSyntax.ParseDatumEof | cxx/lib/Parser/DatumParser.cpp:100-101 | at eof parseDatum returns nullptr and consumes nothing |
| ParserSyntax.ParseListEmpty | cxx/lib/Parser/DatumParser.cpp:146-152 | an opener followed by its closer yields Null |
| ParserSyntax.ListLoopClose | cxx/lib/Parser/DatumParser.cpp:211-216 | a list that is not dotted ends in Null |
| ParserSyntax.ListLoopElement | cxx/lib/Parser/DatumParser.cpp:197-208 | each datum in the list is appended at the tail |
| ParserSyntax.ListLoopDotted | cxx/lib/Parser/DatumParser.cpp:171-194 | in a dotted list the last cdr is the single datum after '.' |
| ParserSyntax.ParseDatumSyn | cxx/lib/Parser/DatumParser.cpp:95-128 | parseDatum on the tokens of a well-formed datum consumes exactly them and returns its tree |
| ParserSyntax.LeafSyn | cxx/lib/Parser/DatumParser.cpp:110-115 | the same for a leaf |
| ParserSyntax.FormSyn | cxx/lib/Parser/DatumParser.cpp:140-226 | parseList on the tokens of a well-formed form consumes exactly them and returns its tree |
| ParserSyntax.EmptyFormSyn | cxx/lib/Parser/DatumParser.cpp:146-152 | the same for an empty form |
| ParserSyntax.ElemsSyn | cxx/lib/Parser/DatumParser.cpp:170-226 | the list loop from element k on finishes the form's tree |
| ParserSyntax.DottedEndSyn | cxx/lib/Parser/DatumParser.cpp:171-194 | the list loop at the last period finishes the dotted tree |
| ParserSyntax.Datums | cxx/lib/Parser/DatumParser.cpp:85-86 | one tree per top-level datum |
| ParserSyntax.TopSyn | cxx/lib/Parser/DatumParser.cpp:85-86 | the top-level loop over the tokens of datums xs collects exactly their trees, in order |
| ParserSyntax.ParseCorrect | cxx/include/s2020/Parser/DatumParser.h:13-15 | on the tokens of well-formed datums scanned without errors, parseDatums reports nothing and returns the list of their trees in input order |
| Parser.DatumParser.constructor | cxx/lib/Parser/DatumParser.cpp:14-19 | the state is Start: the first token scanned, fatal_ clear, nesting_ 0 |
| Parser.DatumParser.Arrive | cxx/lib/Parser/DatumParser.cpp:18 | logging the current token's errors matches the reference Arrive and leaves nesting_ unchanged |
| Parser.DatumParser.LexAdvance | cxx/lib/Parser/DatumParser.cpp:33 | lex_.advance() matches the reference Advance |
| Parser.DatumParser.LexError | cxx/lib/Parser/DatumParser.cpp:123 | lex_.error matches the reference Report |
| Parser.DatumParser.ReportUnterminated | cxx/lib/Parser/DatumParser.cpp:228-234 | the reportUnterminated label matches the reference Unterminated |
| Parser.DatumParser.ParseDatum | cxx/lib/Parser/DatumParser.cpp:95-128 | parseDatum, with NestingRAII, matches the reference ParseDatum and restores nesting_ |
| Parser.DatumParser.DatumLoop | cxx/lib/Parser/DatumParser.cpp:98-127 | the for (;;) loop matches the reference DatumLoop |
| Parser.DatumParser.SkipDatumComments | cxx/lib/Parser/DatumParser.cpp:130-138 | skipDatumComments matches the reference SkipComments |
| Parser.DatumParser.ParseList | cxx/lib/Parser/DatumParser.cpp:140-235 | parseList, with NestingRAII, matches the reference ParseList and restores nesting_ |
| Parser.DatumParser.ListBody | cxx/lib/Parser/DatumParser.cpp:143-235 | the body of parseList after CHECK_NESTING matches the reference |
| Parser.DatumParser.ListElements | cxx/lib/Parser/DatumParser.cpp:170-226 | the while loop building the list by appending at the tail matches the reference ListLoop |
| Parser.DatumParser.DottedTail | cxx/lib/Parser/DatumParser.cpp:171-195 | the dotted branch, with its recovery loop, matches the reference DottedTail |
| Parser.DatumParser.Parse | cxx/lib/Parser/DatumParser.cpp:77-93 | parse() returns None at the limit; otherwise it returns None iff the error count changed, and the list of the datums otherwise |
| Parser.ParseDatums | cxx/lib/Parser/DatumParser.cpp:239-244 | with the count taken before the first token, parseDatums is the reference Parse |
| Parser.ParseDatumsAsWritten | cxx/lib/Parser/DatumParser.cpp:239-244 | parseDatums as written is the reference ParseAsWritten |
| ParserProps.UnterminatedOnce | cxx/lib/Parser/DatumParser.cpp:228-234 | "unterminated list" is reported once, and a second report adds nothing |
| ParserProps.OpenerFails | cxx/lib/Parser/DatumParser.cpp:158-160 | an opener whose first element fails fatally fails the same way, adding no report |
| ParserProps.UnclosedLists | cxx/lib/Parser/DatumParser.cpp:140-235 | however many lists are left open at the end, one "unterminated list" is reported, at eof |
| ParserProps.OnlyOpeners | cxx/lib/Parser/DatumParser.cpp:77-93 | an input of only openers gives one "unterminated list" and no result |
| ParserProps.TooManyOpeners | cxx/lib/Parser/DatumParser.cpp:46-75 | at the nesting limit "too many nested expressions" is reported once, at the opener where it is reached, with fatal_ set |
| ParserProps.NestingLimit | cxx/lib/Parser/DatumParser.cpp:46-75 | 512 openers report "too many nested expressions" at the 512th and nothing else, and no result |
| ParserProps.UnexpectedSkipped | cxx/lib/Parser/DatumParser.cpp:122-125 | an unexpected token is reported, skipped, and the datum after it is returned |
| ParserProps.DatumCommentSkipped | cxx/lib/Parser/DatumParser.cpp:103-108 | #; discards exactly the next datum |
| ParserProps.CommentSkipped | cxx/lib/Parser/DatumParser.cpp:130-138 | skipDatumComments discards #; and its datum the same way |
| ParserProps.DottedTwoLast | cxx/lib/Parser/DatumParser.cpp:171-183 | in (a . b c), the datum after the period is b |
| ParserProps.DottedTwoSkip | cxx/lib/Parser/DatumParser.cpp:184-193 | then "list terminator expected" is reported at c and the recovery loop skips c |
| ParserProps.DottedTwoTail | cxx/lib/Parser/DatumParser.cpp:171-195 | the dotted tail of (a . b c) |
| ParserProps.DottedTwoFirst | cxx/lib/Parser/DatumParser.cpp:158-168 | the first element of (a . b c) |
| ParserProps.DottedTwoDatum | cxx/lib/Parser/DatumParser.cpp:140-235 | (a . b c) as a whole |
| ParserProps.TerminatorExpected | cxx/lib/Parser/DatumParser.cpp:184-193 | (a . b c) reports "list terminator expected" once and gives no result |
| ParserProps.MismatchedCloser | cxx/lib/Parser/DatumParser.cpp:117-125 | "(" is closed only by ")": in "(]" the "]" is unexpected and the list is unterminated |
| ParserProps.FirstTokenErrorIgnored | cxx/lib/Parser/DatumParser.cpp:14-19 | as written, a lexical error in the first token is logged before parse() counts, so the list is still returned |
| ParserSamples.UnmarkedOf | cxx/lib/Parser/DatumParser.cpp:77-93 | the tokens of datums without lexical errors carry no errors |
| ParserSamples.ElemsAll | cxx/lib/Parser/DatumParser.cpp:170-209 | the list loop over all elements collects all their trees |
| ParserSamples.Spines | cxx/include/s2020/AST/AST.h:156 | spines of one to four elements are nested cons cells |
| ParserSamples.FormOf | cxx/unittests/Parser/DatumParserTest.cpp:35-40 | a form of the sample input is well formed, and its tree is the list of its elements' trees |
| ParserSamples.ItemsSyn | cxx/unittests/Parser/DatumParserTest.cpp:35-40 | the print test's input is seven well-formed datums |
| ParserSamples.ItemsDatums | cxx/unittests/Parser/DatumParserTest.cpp:35-40 | their trees are the datums of the smoke test's tree |
| ParserSamples.SmokeSyn | cxx/unittests/Parser/DatumParserTest.cpp:75-81 | the smoke input is one well-formed datum whose tree is the hand-built tree |
| ParserSamples.ReadsBack | cxx/lib/Parser/DatumParser.cpp:77-93 | the tokens of well-formed datums parse, without reports, to the list of their trees |
| ParserSamples.PrintTestParsed | cxx/unittests/Parser/DatumParserTest.cpp:32-46 | the print test's input parses without reports, and iterating the result yields the seven datums that are dumped |
| ParserSamples.ReadsBackOne | cxx/lib/Parser/DatumParser.cpp:77-93 | one well-formed datum parses to a one-element list of its tree |
| ParserSamples.SmokeTestParsed | cxx/unittests/Parser/DatumParserTest.cpp:72-104 | the smoke input parses without reports to a one-element list whose head is deepEqual to the hand-built tree |

## Left out

- Source locations: the `SMLoc`/`SMRange` of nodes are not modelled, and neither are the loops that set them (`AST.cpp:37-40`, `DatumParser.cpp:219-223`). A diagnostic keeps only two byte offsets and its message.
- `sm.note("list started here")`: notes are not part of the error count, and they are not modelled.
- The error manager is reduced to a log of messages plus an error limit, with 0 meaning no limit. `SourceErrorManager` is not part of this model, so the rule "limit reached iff the limit is set and at least that many errors were reported" is an assumption.
- `ListBuilder` and the parser build lists by `setCdr` on shared nodes. The model builds values, so in-place linking and aliasing are not captured. `Ast.ListBuilder.Append` states the new element sequence instead.
- The allocator: `operator new`/`delete`, `BumpPtrAllocator` and `ASTContext::allocateNode` are allocation glue.
- Interning: an identifier is its byte string; `StringTable` is not part of this model.
- Floating point: `getAsDouble` and `roundToDouble` are a parameter of the lexer (`toDouble`), from the number's text to a bit pattern. Printing a double is a parameter of the printer. An inexact result is modelled by which bytes were scanned and the pattern that parameter gives.
- The non-decimal radix branch of `parseNumberDigits` (`Lexer.cpp:331-336`) is dead: every caller passes radix 10.
- `tokenKindStr`, `nodeKindStr` and the character names of `dumpCharacter` depend on `.def` files that are not part of this model. The character names are a parameter of the printer.
- LLVM's `write_escaped`, used for strings, is a parameter of the printer.
- Bytevector and Vector nodes are `llvm_unreachable` stubs in equality and printing, and they are not modelled.
- The buffer is a `seq<byte>` ending in its NUL. The lexer reads `CharTab.inc` as a sequence of 256 flag bytes. That table is proved equal to the script's output, not read from a file.
- The parser reads a token stream rather than the bytes. `ParserSpec.Stream` carries each token with the diagnostics the lexer reported while scanning it, and it is not tied to `Lexer.Lexer.Advance` by a proof. This matters because the lexer as written never produces `datum_comment`: '#' is one of the bytes on which it hangs.
- Lexer.Lexer.Advance: no precondition excludes UTF-8 bytes, '"', '#', '|', '\' or a final comment without a newline. On those inputs the model records the outcome as the status `Overrun` (reading past the terminator) or `Hung` (an iteration that changes nothing) instead of proving termination.
- AstDump.DumpNode and AstDump.Dump print symbols as the source does, with `dumpSymbol` as written. The corrected `AstDump.DumpSymbol` is used only by its round-trip lemmas, and `AstDump.SymbolPrintersAgree` states where the two printers differ.
- LexerSpec.CommentEndIntended is the corrected comment loop. The lexer (`Lexer.Lexer.SkipLineComment`, `LexerSpec.Step`) keeps the loop as written, and `LexerTokens.CommentEndAgrees` proves that the two agree whenever a CR or LF follows the ';'.
- AstDump.SignedChar assumes that plain `char` is signed, as on x86-64. On a target with an unsigned `char` (AArch64 Linux), bytes of 128 and more are positive: they still need bars, the second finding does not arise, and `%x` prints the byte's own value.
- ParserSamples.PrintTestParsed: states the seven parsed datums. The text they dump is stated separately, by `Samples.PrintTest`.
- `DiagContext.h` and the rest of the unit-test harness are not modelled; the test cases are restated as lemmas.

## Findings

| source | as written | input that shows it | evidently intended | confidence | as-written member | corrected member |
|---|---|---|---|---|---|---|
| cxx/lib/AST/AST.cpp:174 | a non-printable byte inside the bars is written `0x%x;`, without the backslash of an R7RS hex escape; `AstDump.DumpNode` prints symbols this way | the symbols of bytes `1 1` and of `0x1;` followed by byte 1 both print `0x1;0x1;` between bars | `\x%x;`, so that distinct symbols print differently | high; not executed | AstDump.AsWrittenCollides | AstDump.DumpSymbolInjective |
| cxx/lib/AST/AST.cpp:174 | on a target where plain `char` is signed (x86-64; not AArch64 Linux), `%x` of the `char` prints the sign-extended 32-bit pattern of the promoted int | the byte 0x80 prints `0xffffff80;` | the byte's own value, `\x80;` | medium; not executed | AstDump.AsWrittenSignExtends | AstDump.DumpSymbolRoundTrip |
| cxx/lib/Parser/DatumParser.cpp:14-19 | the constructor's `lex_.advance()` scans the first token, and its errors are logged before `parse()` takes `numErrors` | the input `1e`, whose only token comes with "invalid number: missing exponent": the lexer substitutes the inexact number 0.0 for `1e` (`Lexer.cpp:313-329`), and the list holding that 0.0 is returned although an error was reported | a result only when no error occurred while parsing the input (`DatumParser.h:13-15`) | high; not executed | ParserProps.FirstTokenErrorIgnored | ParserSpec.Parse |
| cxx/lib/Parser/Lexer.cpp:395 | at a NUL, skipLineComment tests `curCharPtr_ == bufferEnd_`, but `curCharPtr_` still points at the ';', so the test fails at the terminator and the loop reads on | the buffer `;a` and its NUL: the loop passes the NUL at 2 and ends at 3 | the test of the scan pointer, `start == bufferEnd_`, ending the comment at the terminator | high; not executed | LexerTokens.CommentOverrunExample | LexerSpec.CommentEndIntended |
