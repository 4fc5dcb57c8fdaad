# LTL front end and AIGER reader, modelled in Dafny

This project models the two decoders of the `verification` package:

- **The LTL formula front end** (`verification/ltl.py`). It has four parts:
  - the `LTL` catalog of token categories, and the scanner built from it (`_regex`, `tokenize`);
  - the `Tokenizer` cursor, with one token of lookahead;
  - the precedence-climbing parser (`_parse_primary_expression`, `_parse_unary_expression`, `_parse_binary_expression`, `parse`);
  - the AST classes, with their `__eq__`, `__hash__` and `__str__`.
- **The AIGER ASCII reader** (`verification/aig.py`). It has three parts:
  - the literal decoding `_literal`;
  - the signal records;
  - `AIG.from_file`, which reads the header `aag M I L O A`, then the input, latch, output and AND lines, then the symbol table up to a `c` line, then the comments.

Both decoders are modelled twice:

- **As functions.** These state what the decoders compute:
  - `LtlScanner.MatchAt`, `LtlScanner.Lex` and `LtlParser.PBinary`;
  - `AigSpec.Decode`, on a sequence of lines.
- **In the source's imperative form.** Each piece is proved to agree with its function:
  - the `LtlParser.Cursor` class, which holds the token stream and a position;
  - the parser methods that consume it;
  - the scanner loop `Tokenize`;
  - the `AigDecoder.Signal` and `AigDecoder.Aig` classes, and the `Load` method. `Load` builds signal objects, appends them to lists, files them in a map and renames them in place.

The properties of the source are then proved about the functions. Three of them matter most:

- Printing a parsed formula and parsing it again gives the same formula.
- Each decoded AIGER signal comes from the line its position names.
- The map `variables` keeps the last definition of each variable.

Files:

- `wrappers.dfy`: `Option` and `Result`.
- `ltl_catalog.dfy`: token kinds, in declaration order. Also their display symbols, spellings, and the atom, unary and binary tables with the binary precedences.
- `ltl_scanner.dfy`:
  - ordered first-match scanning (`MatchAt`);
  - an independent reference for it (`Classify`);
  - the lazy token stream (`LexFrom`, `Lex`);
  - the loop `Tokenize`.
- `ltl_ast.dfy`: the AST, `__eq__` as `Equal`, `__hash__` as `Hash`, and `__str__` as `Render`.
- `ltl_parser.dfy`: the parser as functions, the `Cursor` class, and the parser methods.
- `ltl_properties.dfy`: grouping, precedence and binding, the error cases, and worked examples.
- `ltl_roundtrip.dfy`, `ltl_rescan.dfy`, `ltl_print_parse.dfy`: printing and then parsing gives back the tree.
- `aig_literal.dfy`: `_literal` and its inverse.
- `aig_text.dfy`: `str.strip`, `str.split`, `str.partition(' ')` and `int`.
- `aig_spec.dfy`: `from_file` as a function of the lines.
- `aig_decoder.dfy`: `from_file` as imperative code over objects.
- `aig_properties.dfy`: what the decoded value says about the file.

The errors the source raises become values:

- LTL (`ParseError`):
  - `LexError(offset)`: unknown token;
  - `Unexpected(token)`;
  - `ExpectedClosingParen(token)`;
  - `ExpectedEnd(token)`.
- AIGER (`DecodeError`):
  - `WrongFieldCount(line)`: a `ValueError` from unpacking;
  - `NotAag`: the `assert` on the magic word;
  - `NotANumber(line)`: a `ValueError` from `int`;
  - `IndexOutOfRange(line)`: an `IndexError` from a symbol line.

`_literal` returns Python booleans for the two constants. Because `True == 1`, the source cannot tell constant true from positive variable 1. The model's `Lit` datatype keeps the two apart, and `PyEqual` says when Python would call two results equal.

## Model

| member | source | states |
|---|---|---|
| LtlCatalog.Rank | verification/ltl.py:12-47 | every category has a position in declaration order, and the catalog holds it there |
| LtlCatalog.PatternOf | verification/ltl.py:12-47 | a category spelled by fixed alternatives has no empty spelling, so only EOF can match the empty string |
| LtlScanner.MatchLiterals | verification/ltl.py:14-35 | a match of fixed spellings (the first one present at `i`) consumes at least one character and stays within the input |
| LtlScanner.WordEnd | verification/ltl.py:38 | `\w+` takes the maximal run of word characters |
| LtlScanner.SpaceEnd | verification/ltl.py:41 | `\s+` takes the maximal run of white space (space, `\t`, `\n`, `\r`, `\v`, `\f` and `\x1c`-`\x1f`) |
| LtlScanner.MatchPattern | verification/ltl.py:50-51 | a category's pattern matches within the input, and every pattern but the empty one consumes input |
| LtlScanner.FirstMatch | verification/ltl.py:50-51 | the combined expression picks the first category from position `j` on that matches; every earlier one fails |
| LtlScanner.EmptyPatternIsEof | verification/ltl.py:47 | only EOF has the empty pattern |
| LtlScanner.MatchAt | verification/ltl.py:50-59 | one step of `finditer`: the winner matches, every earlier category fails, and EOF wins exactly at the end of the input |
| LtlScanner.FirstMatchUnique | verification/ltl.py:50-51 | a category that matches after all earlier ones fail is the winner, with its end |
| LtlScanner.Classify | verification/ltl.py:12-47 | an independent reference cascade on the first character(s) of the input, within bounds |
| LtlScanner.MatchAtIsClassify | verification/ltl.py:12-51 | the ordered alternation and the reference cascade agree at every position |
| LtlScanner.PropositionIsValidName | verification/ltl.py:38 | a proposition token is a valid name, that is a maximal `\w+` run that does not start with an operator letter or `true`/`false`; `aXb` is one proposition |
| LtlScanner.ValidNameIsProposition | verification/ltl.py:38 | a valid name followed by a non-word character scans as one proposition |
| LtlScanner.OperatorLetterWins | verification/ltl.py:22-27 | `X`, `U`, `W`, `R`, `F`, `G` are always the temporal operator, one character long (`Fp` is FINALLY, then `p`) |
| LtlScanner.KeywordPrefixWins | verification/ltl.py:34-35 | text starting with `true` or `false` is that constant, even inside a longer word |
| LtlScanner.EndStep | verification/ltl.py:58-65 | at the end of the input the stream is two EOF tokens with start = end = length and an empty value |
| LtlScanner.Tokenize | verification/ltl.py:57-65 | the scanning loop yields exactly the stream `Lex(s)` |
| LtlScanner.LexFromValid | verification/ltl.py:57-65 | the stream is ordinary tokens, then either two EOF tokens or one unknown-token failure |
| LtlScanner.LexFromFaithful | verification/ltl.py:57-64 | every token's value is the input slice [start, end) and its category is the one that wins there; EOF sits at the end; a failure's offset is where ERROR wins |
| LtlScanner.LexFromGaps | verification/ltl.py:57-64 | only white space lies before the first token and between consecutive tokens, so tokens come in increasing, non-overlapping order and white space is never yielded |
| LtlAst.Classification | verification/ltl.py:79-89 | `is_atom` also holds for propositions, and each node is exactly one of atom, unary operator and binary operator |
| LtlAst.EqualIsStructural | verification/ltl.py:91-143 | `__eq__` holds exactly when two well-formed trees are identical |
| LtlAst.EqualIsEquivalence | verification/ltl.py:91-143 | `__eq__` is reflexive, symmetric and transitive |
| LtlAst.EqualHashesAlike | verification/ltl.py:94-146 | equal trees have equal `__hash__`, for any hash function underneath |
| LtlParser.Step | verification/ltl.py:154-160 | `advance` moves one item on; it raises the scan error when it pulls the failure; after the last EOF it stays put |
| LtlParser.PPrimary | verification/ltl.py:181-194 | a primary expression consumes input and yields a well-formed tree; a reported scan error is one in the stream |
| LtlParser.PUnary | verification/ltl.py:197-203 | the same for a unary expression |
| LtlParser.PBinary | verification/ltl.py:206-213 | the same for a binary expression at a minimum precedence |
| LtlParser.PLoop | verification/ltl.py:208-213 | the loop never moves back and keeps the tree well formed |
| LtlParser.ParseItems | verification/ltl.py:216-221 | a successful parse is a well-formed tree, printable when the names are valid |
| LtlParser.Parse | verification/ltl.py:216-221 | `parse` gives a printable tree, or a scan error at an offset where only ERROR matches |
| LtlParser.LexNamesValid | verification/ltl.py:38 | every proposition the scanner yields is a valid name |
| LtlParser.LexFailFaithful | verification/ltl.py:62-63 | an unknown-token failure lies inside the input, where ERROR wins |
| LtlParser.Cursor.constructor | verification/ltl.py:150-152 | the cursor starts at the first item of the stream |
| LtlParser.Cursor.Advance | verification/ltl.py:154-160 | `advance` returns the previous token and moves as `Step` says, or fails with its error |
| LtlParser.ParsePrimary | verification/ltl.py:181-194 | the imperative `_parse_primary_expression` agrees with `PPrimary` on result and cursor |
| LtlParser.ParseUnary | verification/ltl.py:197-203 | the imperative `_parse_unary_expression` agrees with `PUnary` |
| LtlParser.ParseBinary | verification/ltl.py:206-213 | the imperative `_parse_binary_expression` and its `while` loop agree with `PBinary` |
| LtlParser.ParseFormula | verification/ltl.py:216-221 | the imperative `parse` returns exactly `Parse(s)` |
| LtlParser.LoopStops | verification/ltl.py:208 | the loop ends at a token that is not a binary operator of precedence at least `min` |
| LtlParser.LoopTakes | verification/ltl.py:208-212 | otherwise it takes the operator, parses the right operand at precedence + 1, and folds left |
| LtlParser.BinaryFromUnary | verification/ltl.py:207 | a binary expression starts with a unary expression |
| LtlParser.ParenParses | verification/ltl.py:186-192 | a parenthesised group is reparsed at precedence 0 and then closed |
| LtlProperties.LeafParses | verification/ltl.py:181-185 | a proposition, `true` or `false` is a primary expression of one token |
| LtlProperties.LeafAlone | verification/ltl.py:206-213 | a single leaf followed by no operator is the whole expression |
| LtlProperties.InfixAlone | verification/ltl.py:206-213 | `a op b` parses as one binary node |
| LtlProperties.NestsRight | verification/ltl.py:71-72 | `a op1 b op2 c`, with op2 tighter, groups as `a op1 (b op2 c)` (`a \| b & c`) |
| LtlProperties.FoldsLeft | verification/ltl.py:206-213 | `a op1 b op2 c`, with op1 at least as tight, groups as `(a op1 b) op2 c` (`a & b U c`, `a -> b -> c`) |
| LtlProperties.PrefixBindsTighter | verification/ltl.py:197-203 | `! a & b` is `(¬a) ∧ b` |
| LtlProperties.PrefixNests | verification/ltl.py:197-201 | `G F p` is `G(F(p))` |
| LtlProperties.UnexpectedToken | verification/ltl.py:181-218 | at any position where a primary expression is expected, a token that is not a leaf, a prefix operator or `(` makes the primary, unary and binary levels (at any minimum precedence) fail with "unexpected token" on that token, and so does `parse` when it is the first token |
| LtlProperties.UnclosedParen | verification/ltl.py:187-191 | `(` followed by any complete formula and then a token other than `)`: the parser takes that token first, so a bad character right after it is the scan error; otherwise it fails with "expected closing parenthesis" on the token found; the unary level and `parse` report the same error |
| LtlProperties.LoopEndsAtStop | verification/ltl.py:208-213 | the operator loop ends at a token that is not a binary operator of precedence at least the minimum |
| LtlProperties.TrailingInput | verification/ltl.py:206-221 | after any complete formula parsed from the first token, the next token is no binary operator; `parse` returns the formula if that token is EOF and otherwise fails with "expected end of formula" on it, whatever follows it |
| LtlProperties.LexErrorWhenPulled | verification/ltl.py:154-160 | at the token just before a bad character, each parser level reports the scan error exactly when it would advance (a leaf, `(`, a prefix operator, or a loop operator of enough precedence); otherwise the primary level reports the token as unexpected and the loop stops there |
| LtlProperties.FailureNeverParses | verification/ltl.py:150-160 | a stream that ends in a bad character never parses, and a bad character at the start is the error `parse` reports |
| LtlProperties.EmptyInput | verification/ltl.py:193-194 | the empty formula fails with "unexpected token" at EOF |
| LtlProperties.LazyError | verification/ltl.py:219-220 | `a b @` reports trailing input at `b`, not the unknown `@` |
| LtlProperties.LazyErrorLex | verification/ltl.py:57-65 | the stream of `a b @` is `a`, `b`, then the failure at offset 4 |
| LtlProperties.ImplicationFoldsLeft | verification/ltl.py:211 | `a->b->c` parses as `(a ⇒ b) ⇒ c` |
| LtlProperties.ImplicationsLex | verification/ltl.py:57-65 | the tokens of `a->b->c`, with their offsets and two EOF tokens |
| LtlRoundTrip.SpellOntoIsSpelling | verification/ltl.py:122-140 | the tokens a tree prints to, followed by a rest, are its spelling followed by that rest |
| LtlRoundTrip.UnaryRoundTrip | verification/ltl.py:197-203 | the tokens a well-formed tree spells parse back, as a unary expression, to that tree |
| LtlRoundTrip.PrefixRoundTrip | verification/ltl.py:197-201 | a prefix operator followed by its operand's tokens parses to the unary node |
| LtlRoundTrip.InfixRoundTrip | verification/ltl.py:186-192 | `( l op r )` parses to the binary node |
| LtlRoundTrip.InfixParses | verification/ltl.py:206-213 | in a group, the parser takes the single operator at precedence 0 and stops at `)` |
| LtlRoundTrip.PrintableIsWellFormed | verification/ltl.py:75-146 | a printable tree is well formed |
| LtlRescan.LexLeaf | verification/ltl.py:97-107 | a printed constant or proposition scans as its one token |
| LtlRescan.LexRender | verification/ltl.py:97-140 | the printed form of a tree scans as that tree's tokens |
| LtlRescan.LexPrefixForm | verification/ltl.py:139-140 | `op operand` scans as the operator, then the operand's tokens |
| LtlRescan.LexInfixForm | verification/ltl.py:122-123 | `(l op r)` scans as the parenthesis, the left tokens, the operator, the right tokens and the parenthesis |
| LtlRescan.LexPrinted | verification/ltl.py:57-65 | the scanned printed form is the tree's spelling and two EOF tokens |
| LtlPrintParse.PrintedStream | verification/ltl.py:57-65 | the printed form scans to a valid stream that spells the tree and then ends |
| LtlPrintParse.ReadsBack | verification/ltl.py:197-203 | a spelled tree followed by a token parses back as a unary expression |
| LtlPrintParse.ParsesBack | verification/ltl.py:216-221 | a spelled tree followed by EOF parses back to the tree |
| LtlPrintParse.ParsePrinted | verification/ltl.py:216-221 | `parse(str(t)) == t` for every printable tree |
| LtlPrintParse.RenderInjective | verification/ltl.py:97-140 | two printable trees print alike exactly when they are equal |
| LtlPrintParse.ParseRenderIdempotent | verification/ltl.py:216-221 | for every tree `parse` returns, printing and parsing again gives the same result |
| AigLiteral.Literal | verification/aig.py:6-12 | `0` is false and `1` is true, and only they are |
| AigLiteral.LiteralOfVariable | verification/aig.py:12 | for L ≥ 2 the result is a variable with abs value L div 2, negative exactly when L is odd |
| AigLiteral.EncodeLiteral | verification/aig.py:6-12 | every literal ≥ 0 decodes and re-encodes to itself |
| AigLiteral.LiteralEncode | verification/aig.py:6-12 | every decodable value encodes to a literal that decodes back to it |
| AigLiteral.LiteralInjective | verification/aig.py:6-12 | decoding is injective on literals ≥ 0 |
| AigLiteral.KeyOfLiteral | verification/aig.py:68 | `abs(literal)` is the variable index, shared by a literal and its negation |
| AigLiteral.ConstantTrueIsVariableOne | verification/aig.py:8-12 | constant true differs from variable 1 in the model but compares equal in Python, and shares its key |
| AigText.Strip | verification/aig.py:67 | `strip` leaves no white space at either end |
| AigText.StripPadding | verification/aig.py:67 | `strip` removes exactly the padding around a trimmed text |
| AigText.StripIdempotent | verification/aig.py:95 | stripping twice is stripping once |
| AigText.Split | verification/aig.py:59 | `split()` yields non-empty fields without white space |
| AigText.SplitJoin | verification/aig.py:59 | `split()` of fields joined by spaces gives back the fields |
| AigText.Partition | verification/aig.py:93 | `partition(' ')` splits at the first space, or returns the whole text and two empties |
| AigText.ParseInt | verification/aig.py:7 | `int` skips only space, `\t`, `\n`, `\v`, `\f` and `\r` around the number (not `\x1c`-`\x1f`, which `strip` removes); a value read means the trimmed text ends in a digit, and a negative value means it starts with `-` |
| AigText.TrimIntPadding | verification/aig.py:7 | padding with the white space `int` skips does not change the text `int` reads |
| AigText.DecimalValue | verification/aig.py:7 | the digits of a natural number read back as that number |
| AigText.ParseDecimal | verification/aig.py:7 | `int` reads a decimal, signed or not and padded with the white space `int` skips, as its value |
| AigText.SeparatorIsNoIntSpace | verification/aig.py:93-94 | `\x1c` is white space to `strip` but not to `int`: `"0\x1c".strip()` is `"0"`, while `int("0\x1c")` raises |
| AigSpec.ParseAll | verification/aig.py:61 | `map(int, fields)` succeeds exactly when every field reads, with the values in order |
| AigSpec.Unpack | verification/aig.py:61 | unpacking succeeds exactly on n fields that all read; otherwise the first failure of the lazy `map` decides between a bad number and a wrong count |
| AigSpec.ParseHeader | verification/aig.py:59-61 | a header reads exactly when it is `aag` and five integers |
| AigSpec.ParseRecord | verification/aig.py:65-87 | a record line yields a signal of its section's class |
| AigSpec.ParseSingle | verification/aig.py:67 | an input or output line yields a signal of that class |
| AigSpec.ParseLatch | verification/aig.py:73-74 | a latch line yields a latch |
| AigSpec.ParseAnd | verification/aig.py:84-85 | an AND line yields an AND gate |
| AigSpec.ReadRecords | verification/aig.py:66-69 | a counted loop reads exactly n records |
| AigSpec.RecordsFail | verification/aig.py:66-87 | the first line that fails makes the whole section fail with its error |
| AigSpec.ErrorPersists | verification/aig.py:66-87 | once a section fails, reading more lines does not change the error |
| AigSpec.Unnamed | verification/aig.py:16-18 | new signals have no name |
| AigSpec.Wrap | verification/aig.py:97-101 | a Python list index is valid exactly in [-len, len), and a negative one counts from the end |
| AigSpec.Symbols | verification/aig.py:89-103 | the symbol loop keeps the lengths of the three named lists |
| AigSpec.Named | verification/aig.py:92-101 | each signal gets the name at its position |
| AigSpec.ReadSections | verification/aig.py:65-87 | the four lists have the lengths the header announces, none for a negative count |
| AigSpec.SectionsRead | verification/aig.py:65-87 | the sections are read one after the other, from line 1 |
| AigSpec.InputsFail | verification/aig.py:65-69 | a failing input line is the error of the whole read |
| AigSpec.LatchesFail | verification/aig.py:71-76 | a failing latch line is the error of the whole read |
| AigSpec.OutputsFail | verification/aig.py:78-80 | a failing output line is the error of the whole read |
| AigSpec.AndsFail | verification/aig.py:82-87 | a failing AND line is the error of the whole read |
| AigDecoder.Signal.constructor | verification/aig.py:15-43 | a new signal has its class, its literal and no name |
| AigDecoder.Aig.constructor | verification/aig.py:47-53 | the AIG holds the six parts it is given |
| AigDecoder.ReadSection | verification/aig.py:65-87 | one counted loop: fresh, unnamed signals whose records are `ReadRecords`; `variables` is updated for all sections except outputs |
| AigDecoder.EnterStep | verification/aig.py:68 | filing one more signal keeps the map pointing at the right objects |
| AigDecoder.SetName | verification/aig.py:97-101 | setting a name changes that signal's name and no other |
| AigDecoder.Rename | verification/aig.py:96-101 | one symbol line renames exactly as `AigSpec.Rename` says, or reports the index out of range |
| AigDecoder.NameSignals | verification/aig.py:89-101 | the symbol loop sets the names and returns the comments `Symbols` computes, or fails with its error |
| AigDecoder.ReadFront | verification/aig.py:63-76 | the input and latch loops read their records and fill `variables` |
| AigDecoder.ReadAll | verification/aig.py:63-87 | the four loops read the sections, give distinct fresh signals, and fill `variables` |
| AigDecoder.Load | verification/aig.py:56-105 | `from_file` fails exactly when the specification fails, with the same error; otherwise its objects denote the decoded value |
| AigDecoder.NameAndBuild | verification/aig.py:89-105 | naming and building agree with the specification's symbol step |
| AigDecoder.FromLines | verification/aig.py:56-105 | the decoder with the AIGER readers agrees with `Decode` |
| AigProperties.RecordAt | verification/aig.py:65-87 | record j of a section is what line start + j parses to |
| AigProperties.RecordsRead | verification/aig.py:65-87 | a section reads when every one of its lines parses |
| AigProperties.RecordsFirstError | verification/aig.py:65-87 | a section fails with the error of its first bad line |
| AigProperties.RecordFields | verification/aig.py:73-84 | a latch line needs exactly two integer fields, an AND line exactly three |
| AigProperties.DecodeHeader | verification/aig.py:59-61 | a header that does not read is the error of the whole file |
| AigProperties.DecodeNeedsHeader | verification/aig.py:59-61 | a file that decodes starts with `aag` and exactly five integers |
| AigProperties.MaxVarIgnored | verification/aig.py:61 | M plays no part in the decoding |
| AigProperties.DecodeParts | verification/aig.py:56-105 | a decoded file is its sections, then its symbol table, with `variables` filled from inputs, latches and gates |
| AigProperties.DecodeCounts | verification/aig.py:66-83 | the lists have the lengths I, L, O, A from the header |
| AigProperties.SectionsAt | verification/aig.py:65-87 | each section is read from the line where the previous one ends |
| AigProperties.DecodeSections | verification/aig.py:65-87 | the four lists of a decoded file are its four sections, in file order |
| AigProperties.InputAt | verification/aig.py:65-69 | input j is the integer on line 1 + j |
| AigProperties.LatchAt | verification/aig.py:71-76 | latch j is the two integers of its line: literal and successor |
| AigProperties.OutputAt | verification/aig.py:78-80 | output j is the integer on its line |
| AigProperties.AndAt | verification/aig.py:82-87 | gate j is the three integers of its line, and it is never named |
| AigProperties.EnterHit | verification/aig.py:86 | the last record with a key owns it in the map |
| AigProperties.EnterMiss | verification/aig.py:86 | records without a key leave its entry alone |
| AigProperties.AndWins | verification/aig.py:86 | the last AND gate with a key owns it |
| AigProperties.LatchWins | verification/aig.py:75 | failing a gate, the last latch with a key owns it |
| AigProperties.InputWins | verification/aig.py:68 | failing gates and latches, the last input with a key owns it |
| AigProperties.Unfiled | verification/aig.py:78-80 | a key held only by outputs, or by nothing, is not in the map |
| AigProperties.TableEnd | verification/aig.py:89-91 | the table ends at the first `c` line, or at the end of the file |
| AigProperties.RenameEffect | verification/aig.py:96-101 | a valid index sets that one name and changes no other list |
| AigProperties.SymbolsSucceed | verification/aig.py:89-101 | the table reads when every line before its end is accepted |
| AigProperties.SymbolsFail | verification/aig.py:94-101 | the first rejected line, whether its index is not a number or out of range, is the error |
| AigProperties.SymbolsComments | verification/aig.py:89-103 | the comments are the lines after the ending `c` line, or none |
| AigProperties.SymbolsNames | verification/aig.py:92-101 | each position ends up with the name of the last line naming it, or keeps its name |
| AigProperties.SymbolFailureFails | verification/aig.py:94-101 | a rejected symbol line fails the whole decoding |
| AigProperties.CommentLine | verification/aig.py:90 | a line ends the table exactly when it strips to `c` |
| AigProperties.SeparatorInPosition | verification/aig.py:92-94 | the position of a symbol line is read by `int` unstripped, so `i0\x1c x` is an unreadable line rather than a name for input 0 |
| AigProperties.DecodeTable | verification/aig.py:89-103 | the table of a decoded file is read from the line after its records, starting from unnamed signals |
| AigProperties.TableEndsAtComment | verification/aig.py:89-91 | no line before the table's end strips to `c`, and the one at its end does |
| AigProperties.DecodeComments | verification/aig.py:89-103 | the comments of a decoded file are the lines after the first `c` line after the records, or none |
| AigProperties.DecodeNames | verification/aig.py:92-101 | each signal of a decoded file has the name of the last line naming it, or none |
| AigProperties.DecodeVariables | verification/aig.py:63-87 | in a decoded file's `variables`, the last gate, else the last latch, else the last input with a key owns it; outputs own none |

## Left out

- File I/O (`open`, `readline`, iteration over the file) is not modelled. The decoder takes the file's lines as a sequence of strings. `readline` past the end gives the empty string.
- `verification/sat.py` is not part of this model: it is a binding to a native SAT solver.
- `setup.py` is not part of this model: it downloads and builds that solver.
- `verification/__init__.py` is not part of this model: it only re-exports names.
- Python's `re` engine is not modelled. The catalog's fixed spellings are encoded directly.
- `\w`, `\s` and `str.isspace` are approximated by their ASCII members. For `\s` and `str.isspace` these are space, `\t`, `\n`, `\r`, `\v`, `\f` and `\x1c`-`\x1f`; non-ASCII white space such as `\x85` and `\xa0` is not modelled.
- Lines are any strings. A line read from a file is never empty, so the decoder's `line[0]`, which raises on an empty line, is never reached with one; the model classifies an empty line as neither a symbol line nor a comment start.
- `int` is modelled for ASCII decimal digits with an optional sign, surrounded by the white space `int` skips in ASCII text: space, `\t`, `\n`, `\r`, `\v` and `\f`, which leaves out `\x1c`-`\x1f`. Underscores between digits, non-ASCII digits and non-ASCII white space are not modelled.
- Concrete `hash()` values are not modelled. The hash of kinds and tuples is a parameter, and only "equal trees hash alike" is stated.
- Exception message texts are not modelled. Errors are values that carry the offending offset, token or line.
- The generator behind `Tokenizer` is computed eagerly as a sequence. The sequence stops at the first unknown token, and the cursor reports it only when it advances onto it, which keeps the laziness the parser sees.
- `Signal.__str__` is not modelled: it only formats text.
- `__eq__` against objects that are not AST nodes is not modelled.
- Python's recursion limit is not modelled. Deeply nested formulas that would raise `RecursionError` parse in the model.
- The round trip is stated for printable trees, which are the trees `parse` can return. Trees with names the scanner cannot produce print as text that does not parse back.
