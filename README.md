# plainfields in Dafny

plainfields is a small toolchain for one-line configuration text such as
`john, age=30, ^debug, tags=a;b, env=k:v`. It has three layers and a serialiser:

- **Lexer** (`lex.go`, `classify.go`, `token.go`, `position.go`). A rune-by-rune state machine. It turns the text into tokens. Each token carries its kind, its start position (byte offset and 1-based rune column) and its raw text. The token list ends with exactly one `EOF` or one `Error` token.
- **Parser** (`parser.go`). A parser with one token of lookahead. Its top-level section moves `start → ordered → labeled → eof`. It emits `ListStart/ListEnd/MapStart/MapEnd`, `MapKey`, `Value` and `Error` events. It stops at the first error it reports. An `Error` token that directly follows a complete field is passed over without a report (`ParseShapes.TrailingErrorIgnored`).
- **Values** (`value.go`, `valueevent.go`). Type-guarded conversions of the values in events. Integers are parsed as Go integer literals with base prefixes, sign and 64-bit range.
- **Builder** (`builder.go`). Accumulates fields and joins them into plainfields text. It quotes strings that would not read back as one plain lexeme.

The model has the following parts:

- `Lexers.Lexer` (lexer.dfy) is a class with the Go lexer's mutable fields `start`, `pos`, `prev` and `done`. Every state function is a method, and `RunPattern` is a `while` loop over an explicit `LexState` enum. The `yield` callback becomes a `tokens` sequence that only grows. Each state method is proved to make exactly the move that the pure `Move` function of its state describes. The loop keeps the invariant that the tokens emitted so far, followed by what the current state still owes, are the specification's token list.
- `LexSpec` (lexspec.dfy) is that specification. `ScanToken` scans one lexeme at a time, and `Tokenize`/`Lex` produce the whole token list. The main theorem, `TokenizeWellFormed`, proves that every token list has these properties:
  - it ends once, in EOF or Error;
  - every non-error token's text is the input slice at its position;
  - the tokens do not overlap and are in input order;
  - EOF sits at the end of the input.
- Input is a sequence of runes (Dafny `char`s). A position's `Offset` is the UTF-8 width of the runes before it (section 3 of RFC 3629, `Utf8`). Its `Column` is the rune index plus one.
- `Parsers.Parser` (parser.dfy) is a class over a `seq<Token>`. It has a cursor standing for the pulled iterator, and it keeps the Go parser's `peeked` slot, `current`, `hasToken`, `state` and an `events` sequence. Each method is proved equal to a function of `ParseSpec` (parsespec.dfy), applied to the parser's abstract state. The properties of a whole parse are proved about those functions:
  - brackets are properly nested;
  - there is at most one error, and it is the last event;
  - the section change events are as listed;
  - booleans, assignments and scalars give the events shown in the table below.
- `ParseShapes` (parseshapes.dfy) gives the events of the compound right-hand sides for every token list of a given shape:
  - a list `v0;v1;…;vn` gives `ListStart`, one `Value` per item and `ListEnd`;
  - a map of `k:v`, `^name` and `!name` entries gives `MapStart`, a `MapKey`/`Value` pair per entry and `MapEnd`;
  - the malformed forms stop with the error the source reports: a `;` before a non-value, a map `;` before a value without `:`, and a non-value after `=`.
  - The error cases of `parser_test.go` follow as corollaries.
- `Values`, `ValueEvents` and `Strconv` (values.dfy, valueevents.dfy, strconv.dfy) are pure.
  - `Strconv.ParseInt`/`ParseUint` follow Go's `strconv` for base 0 and 64 bits: digit folding with an overflow cut-off and the underscore rule.
  - They are proved equal to the "Integer literals" grammar of The Go Programming Language Specification, evaluated and range-checked.
  - They round-trip decimal numerals.
- `Builders.Builder` (builder.dfy) is a class with the append-only `fields` list and the `hasLabeled` flag. Its `List` and `Pairs` methods keep the source's index loops, proved against `FormatAll`/`PairParts`.
  - `NeedsQuoting`'s contract is the source's condition with `ContainsAny` unfolded. What quoting achieves is proved by `StringValueReadsBack`: a formatted string reads back either as plain text or as exactly one string lexeme.
  - A quoted string is proved to lex back as exactly one string token.

`unicode.IsLetter` is a parameter `letter: int -> bool`. `LetterClass(letter)` constrains it: on ASCII it is exactly the Latin letters, and no negative rune (EOF) is a letter. `strconv.Unquote` is a parameter `unquote`.

Where the source files disagree with each other, or a behaviour is easy to misread, the model follows `lex.go`, `parser.go` and `value.go`:

- The prefix token kind is one kind named `FieldPrefix`. `token.go` calls it `TokenFieldPrefix`; `lex.go` and `parser.go` call it `TokenBooleanPrefix`.
- `Value` is the record `{Type, Value}` of `value.go:73-76`, with `ZeroValue` and `BooleanValue` among its type tags. The older `ValueEvent` of `valueevent.go` keeps the token kind instead, and `ValueEvents` models it separately.
- The top-level parser loop advances past whatever token ends a field, as `parser.go:200-213` does, so `a b` parses as the single ordered value `a`. An `Error` token right after a complete field is skipped the same way.

## Model

| member | source | states |
|---|---|---|
| Classify.DigitClassesNest | classify.go:16-30 | binary digits are octal digits, octal digits are decimal digits, and decimal digits are hex digits |
| Classify.EofInNoClass | classify.go:8-42 | the end-of-input marker −1 is in no rune class, so every scanning loop stops at the end |
| Classify.TopClassesDisjoint | lex.go:91-131 | the classes the top state tests in turn (blank, punctuation, quote, sign/digit, letter) are pairwise disjoint, so the case order never decides the token |
| Utf8.RuneWidth | lex.go:38-42 | a rune's UTF-8 width is 1 to 4 bytes, and it is 1 exactly for ASCII |
| Utf8.ByteLengthBounds | lex.go:38-42 | a text's byte length lies between its rune count and four times it, and equals the rune count exactly for ASCII |
| Utf8.PrefixWidthIsByteLength | lex.go:38-42 | the offset after `i` runes is the byte length of those runes |
| Utf8.PrefixWidthIncreasing | lex.go:38-42 | offsets strictly increase with the rune index, so distinct runes have distinct offsets |
| Format.NatToString | value.go:59 | a decimal numeral has no superfluous leading zero and is one digit long exactly below 10 |
| Format.NatToStringInjective | value.go:59 | distinct naturals print differently |
| Format.IntToString | value.go:59 | a negative number prints as `-` followed by its magnitude's numeral; a non-negative one prints as its numeral |
| Format.IntToStringInjective | value.go:59 | distinct integers print differently |
| Positions.PositionString | position.go:13-15 | the rendering is `Col `, the column's decimal numeral, ` (Offset `, the offset's decimal numeral and `)` |
| Positions.PositionStringReadsBack | position.go:13-15 | for 64-bit fields, both numerals of the rendering parse back with `ParseInt` to the column and the offset |
| Positions.PositionStringHasNoColon | position.go:13-15 | a rendered position contains no `:` |
| Positions.PositionStringInjective | position.go:13-15 | distinct positions render differently |
| Positions.StartPositionString | position.go:13-15 | the start position renders as `Col 1 (Offset 0)` and the zero position as `Col 0 (Offset 0)` |
| Tokens.TokenTypeString | token.go:27-58 | each of the 13 declared kinds renders as its name, and every other value, negative ones included, as `TokenType(n)` |
| Tokens.TokenNamesDistinct | token.go:28-53 | the 13 kind names are pairwise distinct and none ends in `)` |
| Tokens.TokenTypeStringInjective | token.go:27-58 | distinct kinds render differently, so a "got %s" message identifies the kind |
| Tokens.TokenTypeStringExamples | token.go:27-58 | `PairSeparator`, `TokenType(9999)` and `TokenType(-42)` render as the source's tests expect |
| LexSpec.PosAt | lex.go:28-45 | the position of rune index `i` has column `i+1` and an offset of at least `i` |
| LexSpec.Span | lex.go:60-65 | the text between two rune indices has as many runes as the indices are apart |
| LexSpec.SpanIsSlice | lex.go:60-65 | a token's text is exactly the input slice between its start and end |
| LexSpec.Run | lex.go:221-235 | a scan over a class ends at the first rune outside the class, or at the end of input |
| LexSpec.KeywordKind | lex.go:135-155 | exactly `true`, `false` and `nil` are keywords; every other text is an identifier |
| LexSpec.IdentifierRun | lex.go:135-155 | an identifier extends up to the first rune that is not identifier-continue |
| LexSpec.ScanString | lex.go:157-188 | a string lexeme ends just after a rune equal to the opening quote |
| LexSpec.ScanExponent | lex.go:255-279 | an exponent either scans a number or fails with the message given for its kind (`expected digit after exponent` / `... hex exponent`) |
| LexSpec.ScanHex | lex.go:281-321 | a hex number after `0x` is a non-empty number lexeme or fails |
| LexSpec.ScanBased | lex.go:349-383 | an octal or binary number after its prefix is a non-empty lexeme or fails with its digit message |
| LexSpec.ScanZero | lex.go:197-216 | what follows a leading zero is a number lexeme ending within the input, or a failure |
| LexSpec.ScanNumber | lex.go:190-219 | a number starting at `i` ends within the input |
| LexSpec.NumberIsNonEmpty | lex.go:190-219 | a number lexeme consumes at least its sign or first digit |
| LexSpec.ScanToken | lex.go:90-133 | every lexeme consumes at least one rune |
| LexSpec.LexemeKind | lex.go:90-133 | no lexeme is scanned as an EOF or Error token |
| LexSpec.TokenizeWellFormed | lex.go:83-133 | the token list ends with exactly one EOF or Error; each token sits at the position of its first rune, and each non-error token's text is the input slice there; tokens are in input order without overlap; EOF has empty text and the end-of-input position |
| LexSpec.TokenizeAtWellFormed | lex.go:90-133 | the same from a non-blank rune on |
| LexSpec.BlankYieldsEof | lex.go:92-99 | blank input remainders produce no token but the EOF at the end of input |
| LexSpec.AsciiColumns | lex.go:38-42 | on ASCII input, every token's column is its offset plus one |
| LexSpec.BlankExample | lex.go:28-45 | the input `"   \t\n  "` gives one EOF at offset 7, column 8 (no line reset at `\n`) |
| LexSpec.HexErrorExample | lex.go:281-287 | `h=0xGHI` gives Identifier `h`, Assign, then Error "expected hex digit" at the number's start (offset 2, column 3) |
| LexSpec.ScanDecimal | lex.go:221-235 | a decimal number lexeme from `i` on ends within the input, at or after `i` |
| LexSpec.ScanFraction | lex.go:242-253 | the same for the digits after `.` |
| LexSpec.ScanHexMantissa | lex.go:289-303 | the same for hex digits after `0x` |
| LexSpec.ScanHexFraction | lex.go:310-321 | the same for hex digits after the `.` of a hex number |
| LexSpec.HexNumeral | lex.go:131 | the code point of `%#U` is written with upper-case hex digits, padded to at least four |
| LexSpec.HexDigit | lex.go:131 | a digit value below 16 is written as `0`-`9` or `A`-`F` |
| LexSpec.UnexpectedCharacter | lex.go:131 | the message starts `unexpected character: U+` and ends with the quoted rune exactly when the rune is printable |
| LexSpec.HexNumeralExamples | lex.go:131 | 64 and 1 are written `0040` and `0001` |
| LexSpec.UnexpectedCharacterExamples | lex.go:131 | `@` gives `unexpected character: U+0040 '@'`; the control rune U+0001 gives `unexpected character: U+0001`, without a quote |
| LexSpec.Tokenize | lex.go:90-133 | the token list from index `i` on is non-empty and ends in EOF or Error |
| LexSpec.TokenizeAt | lex.go:90-133 | the same from a non-blank rune on |
| LexSpec.Lex | lex.go:394-407 | the token list of the whole input is well formed from offset 0, in the sense of `TokenizeWellFormed` |
| Lexers.Lexer.constructor | lex.go:394-407 | a fresh lexer starts at offset 0, column 1, with no tokens and not done |
| Lexers.Lexer.Next | lex.go:28-45 | returns the rune at `pos` (EOF at the end) and advances past it by one column and its UTF-8 width, remembering the old position in `prev` |
| Lexers.Lexer.Undo | lex.go:48-50 | steps back to `prev` |
| Lexers.Lexer.Peek | lex.go:53-57 | returns the next rune without moving |
| Lexers.Lexer.Text | lex.go:60-65 | the text from `start` to `pos` |
| Lexers.Lexer.Emit | lex.go:68-75 | appends one token of the given kind at `start` with the text so far, then moves `start` to `pos` |
| Lexers.Lexer.Ignore | lex.go:78-80 | drops the text so far by moving `start` to `pos`, emitting nothing |
| Lexers.Lexer.Errorf | lex.go:83-88 | appends an Error token at `start` carrying the message, sets `done` and returns the stop state |
| Lexers.Lexer.LexTop | lex.go:90-133 | makes exactly the top-state move: EOF at the end, blanks skipped, one-rune punctuation tokens, or the hand-over to the string, number or identifier state, or the unexpected-character error |
| Lexers.Lexer.LexPunctuation | lex.go:101-120 | emits the one-rune token of a punctuation rune and returns to the top state |
| Lexers.Lexer.LexIdentifierOrKeywordContinue | lex.go:135-155 | consumes one identifier-continue rune, or emits the identifier or keyword token |
| Lexers.Lexer.LexString | lex.go:157-167 | consumes the opening quote and enters the string content state for that quote |
| Lexers.Lexer.LexStringContent | lex.go:169-181 | consumes one rune of the content: the closing quote emits the string, a backslash enters the escape state, the end fails with "unterminated string" |
| Lexers.Lexer.LexStringEscape | lex.go:183-188 | consumes any one rune after a backslash, or fails with "unterminated escape sequence" at the end |
| Lexers.Lexer.LexNumber | lex.go:190-219 | consumes an optional sign, then branches on a leading zero or a decimal digit |
| Lexers.Lexer.LexZero | lex.go:197-216 | after a leading zero, `x`/`o`/`b` (either case) select hex, octal or binary digits; anything else continues as decimal |
| Lexers.Lexer.LexDecimalDigits | lex.go:221-235 | consumes digits and `_`, branching to the fraction at `.`, the exponent at `e`, or emitting the number |
| Lexers.Lexer.LexDecimalFraction | lex.go:237-240 | consumes the `.` |
| Lexers.Lexer.LexDecimalFractionDigits | lex.go:242-253 | consumes fraction digits, branching to the exponent at `e` or emitting the number |
| Lexers.Lexer.LexExponent | lex.go:255-269 | consumes the exponent mark and an optional sign, then requires a decimal digit or fails with "expected digit after exponent" |
| Lexers.Lexer.LexExponentDigits | lex.go:271-279 | consumes exponent digits, then emits the number |
| Lexers.Lexer.LexHexDigits | lex.go:281-287 | requires one hex digit after `0x` or fails with "expected hex digit" |
| Lexers.Lexer.LexHexDigitsContinue | lex.go:289-303 | consumes hex digits and `_`, branching to the hex fraction at `.`, the hex exponent at `p`, or emitting the number |
| Lexers.Lexer.LexHexFraction | lex.go:305-308 | consumes the `.` of a hex number |
| Lexers.Lexer.LexHexFractionDigits | lex.go:310-321 | consumes hex fraction digits, branching to the exponent at `p` or emitting the number |
| Lexers.Lexer.LexHexExponent | lex.go:323-337 | consumes `p` and an optional sign, then requires a decimal digit or fails with "expected digit after hex exponent" |
| Lexers.Lexer.LexHexExponentDigits | lex.go:339-347 | consumes hex-exponent digits, then emits the number |
| Lexers.Lexer.LexOctalDigits | lex.go:349-355 | requires one octal digit after `0o` or fails with "expected octal digit" |
| Lexers.Lexer.LexOctalDigitsContinue | lex.go:357-365 | consumes octal digits and `_`, then emits the number |
| Lexers.Lexer.LexBinaryDigits | lex.go:367-373 | requires one binary digit after `0b` or fails with "expected binary digit" |
| Lexers.Lexer.LexBinaryDigitsContinue | lex.go:375-383 | consumes binary digits and `_`, then emits the number |
| Lexers.Lexer.Dispatch | lex.go:385-391 | runs the state function of the current state; the move keeps the loop invariant and shrinks the termination measure |
| Lexers.Lexer.Step | lex.go:386-390 | one round of the loop: the tokens emitted so far plus what the new state still owes remain the whole token list, and the measure decreases |
| Lexers.Lexer.RunPattern | lex.go:385-391 | the loop over state functions terminates and appends exactly the specification's token list |
| Lexers.TopSound | lex.go:90-133 | the move of the `Top` state (`TopMove`) is sound: what it emits, followed by what its target state still owes, is what `Top` owed, and it lowers the termination measure |
| Lexers.IdentifierOrKeywordSound | lex.go:135-155 | the move of the `IdentifierOrKeyword` state (`IdentifierOrKeywordMove`) is sound: what it emits, followed by what its target state still owes, is what `IdentifierOrKeyword` owed, and it lowers the termination measure |
| Lexers.StringStartSound | lex.go:157-167 | the move of the `StringStart` state (`StringStartMove`) is sound: what it emits, followed by what its target state still owes, is what `StringStart` owed, and it lowers the termination measure |
| Lexers.StringContentSound | lex.go:169-188 | the move of the `StringContent` state (`StringContentMove`) is sound: what it emits, followed by what its target state still owes, is what `StringContent` owed, and it lowers the termination measure |
| Lexers.NumberSound | lex.go:190-219 | the move of the `Number` state (`NumberMove`) is sound: what it emits, followed by what its target state still owes, is what `Number` owed, and it lowers the termination measure |
| Lexers.DecimalDigitsSound | lex.go:221-235 | the move of the `DecimalDigits` state (`DecimalDigitsMove`) is sound: what it emits, followed by what its target state still owes, is what `DecimalDigits` owed, and it lowers the termination measure |
| Lexers.DecimalFractionSound | lex.go:237-240 | the move of the `DecimalFraction` state (`DecimalFractionMove`) is sound: what it emits, followed by what its target state still owes, is what `DecimalFraction` owed, and it lowers the termination measure |
| Lexers.DecimalFractionDigitsSound | lex.go:242-253 | the move of the `DecimalFractionDigits` state (`DecimalFractionDigitsMove`) is sound: what it emits, followed by what its target state still owes, is what `DecimalFractionDigits` owed, and it lowers the termination measure |
| Lexers.ExponentSound | lex.go:255-269 | the move of the `Exponent` state (`ExponentMove`) is sound: what it emits, followed by what its target state still owes, is what `Exponent` owed, and it lowers the termination measure |
| Lexers.ExponentDigitsSound | lex.go:271-279 | the move of the `ExponentDigits` state (`ExponentDigitsMove`) is sound: what it emits, followed by what its target state still owes, is what `ExponentDigits` owed, and it lowers the termination measure |
| Lexers.HexDigitsSound | lex.go:281-287 | the move of the `HexDigits` state (`HexDigitsMove`) is sound: what it emits, followed by what its target state still owes, is what `HexDigits` owed, and it lowers the termination measure |
| Lexers.HexDigitsContinueSound | lex.go:289-303 | the move of the `HexDigitsContinue` state (`HexDigitsContinueMove`) is sound: what it emits, followed by what its target state still owes, is what `HexDigitsContinue` owed, and it lowers the termination measure |
| Lexers.HexFractionSound | lex.go:305-308 | the move of the `HexFraction` state (`HexFractionMove`) is sound: what it emits, followed by what its target state still owes, is what `HexFraction` owed, and it lowers the termination measure |
| Lexers.HexFractionDigitsSound | lex.go:310-321 | the move of the `HexFractionDigits` state (`HexFractionDigitsMove`) is sound: what it emits, followed by what its target state still owes, is what `HexFractionDigits` owed, and it lowers the termination measure |
| Lexers.HexExponentSound | lex.go:323-337 | the move of the `HexExponent` state (`HexExponentMove`) is sound: what it emits, followed by what its target state still owes, is what `HexExponent` owed, and it lowers the termination measure |
| Lexers.HexExponentDigitsSound | lex.go:339-347 | the move of the `HexExponentDigits` state (`HexExponentDigitsMove`) is sound: what it emits, followed by what its target state still owes, is what `HexExponentDigits` owed, and it lowers the termination measure |
| Lexers.OctalDigitsSound | lex.go:349-355 | the move of the `OctalDigits` state (`OctalDigitsMove`) is sound: what it emits, followed by what its target state still owes, is what `OctalDigits` owed, and it lowers the termination measure |
| Lexers.OctalDigitsContinueSound | lex.go:357-365 | the move of the `OctalDigitsContinue` state (`OctalDigitsContinueMove`) is sound: what it emits, followed by what its target state still owes, is what `OctalDigitsContinue` owed, and it lowers the termination measure |
| Lexers.BinaryDigitsSound | lex.go:367-373 | the move of the `BinaryDigits` state (`BinaryDigitsMove`) is sound: what it emits, followed by what its target state still owes, is what `BinaryDigits` owed, and it lowers the termination measure |
| Lexers.BinaryDigitsContinueSound | lex.go:375-383 | the move of the `BinaryDigitsContinue` state (`BinaryDigitsContinueMove`) is sound: what it emits, followed by what its target state still owes, is what `BinaryDigitsContinue` owed, and it lowers the termination measure |
| Lexers.TransitionSound | lex.go:385-391 | the move `Transition` makes in every state but the stop state is sound in the same sense |
| Lexers.TransitionDecreases | lex.go:385-391 | every move lands in a state whose invariant holds with a smaller measure, so the state loop terminates |
| Lexers.Lex | lex.go:394-407 | the tokens of `input` are `LexSpec.Lex(input)`, so they are well formed in the sense of `TokenizeWellFormed` |
| Strconv.ParseUint | value.go:113 | a success is at most 2^64−1; a failure names `ParseUint` and the input |
| Strconv.ParseInt | value.go:105 | a success lies in [−2^63, 2^63); a failure names `ParseInt` and the input |
| Strconv.AccumulateCorrect | value.go:105-113 | the digit fold succeeds exactly when every prefix's value stays in 64 bits with valid digits, and it then yields the digits' value |
| Strconv.ParseUintMatchesGrammar | value.go:113 | `ParseUint` succeeds exactly on Go integer literals whose value fits 64 unsigned bits, and yields that value |
| Strconv.ParseIntMatchesGrammar | value.go:105 | `ParseInt` succeeds exactly on an optionally signed Go integer literal whose signed value fits 64 bits, and yields it |
| Strconv.ParseUintRoundTrip | value.go:113 | printing then parsing any 64-bit unsigned number gives it back |
| Strconv.ParseIntRoundTrip | value.go:105 | printing then parsing any 64-bit signed number gives it back |
| Strconv.HexExample | value.go:105-113 | `0x23` is 35 |
| Strconv.OctalExample | value.go:113 | `0o644` is 420 |
| Strconv.BinaryExample | value.go:113 | `0b01100101` is 101 |
| Strconv.DecimalExamples | value.go:105-113 | `23` is 23 for both, `-42` is −42 as int |
| Strconv.SignRejectedByParseUint | value.go:113 | `-42` is a syntax error as uint |
| Strconv.FractionRejected | value.go:105-113 | `3.14` is an error for both |
| Strconv.SeparatorExamples | value.go:113 | `1_000` is 1000 and `1__0` is an error |
| Values.ValueTypeString | value.go:44-61 | the six value types render as zero/nil/boolean/number/string/identifier, and any other value as `ValueType(n)` |
| Values.ValueTypeStringInjective | value.go:44-61 | distinct value types render differently |
| Values.ToString | value.go:89-98 | identifiers and numbers give their raw text; strings are unquoted; zero, nil and boolean fail with "cannot convert <type> to string" |
| Values.ToInt | value.go:101-106 | a non-number fails with "cannot convert <type> to int"; a success is a 64-bit signed value |
| Values.ToUint | value.go:109-114 | a non-number fails with "cannot convert <type> to uint"; a success is a 64-bit unsigned value |
| Values.ToFloatGuard | value.go:117-120 | only a number passes the float conversion's type guard |
| Values.ToBool | value.go:165-171 | succeeds exactly for booleans and yields whether the raw text is `true` |
| Values.ValueFromToken | value.go:174-189 | string, number and identifier tokens keep their text, true/false become booleans, nil becomes `{nil, "nil"}`, every other token `{zero, ""}`; `IsZero` and `IsNil` hold exactly for those types |
| Values.ToIntMatchesGrammar | value.go:101-106 | `ToInt` of a number succeeds exactly on an optionally signed Go integer literal in 64-bit range, with its value |
| Values.ToUintMatchesGrammar | value.go:109-114 | `ToUint` of a number succeeds exactly on a Go integer literal in 64-bit unsigned range, with its value |
| Values.ToIntRoundTrip | value.go:101-106 | a number value printed from a 64-bit int converts back to it |
| Values.ToUintRoundTrip | value.go:109-114 | a number value printed from a 64-bit uint converts back to it |
| Values.NumberConversionExamples | value.go:101-114 | `0x23`, `0o644` and `0b01100101` convert to 35, 420 and 101 |
| Values.SignedConversionExamples | value.go:101-114 | `-42` converts as int but not as uint, and `3.14` converts as neither |
| Values.GuardExamples | value.go:89-171 | a string is refused by `ToInt` with "cannot convert string to int"; `false` converts to false |
| ValueEvents.ToString | valueevent.go:47-56 | identifier and number events give their raw text; string events are unquoted; others fail naming the token type |
| ValueEvents.ToInt | valueevent.go:59-64 | fails unless the event is a number; a success is a 64-bit signed value |
| ValueEvents.ToUint | valueevent.go:67-72 | fails unless the event is a number; a success is a 64-bit unsigned value |
| ValueEvents.ToFloatGuard | valueevent.go:75-78 | only a number event passes the float conversion's type guard |
| ValueEvents.ToBool | valueevent.go:123-132 | succeeds exactly for true and false events and yields whether it is true |
| ValueEvents.AgreesWithValue | valueevent.go:59-72 | for a number token the event conversions agree with the value model's |
| ValueEvents.NilAgreesWithValue | valueevent.go:42-44 | an event is nil exactly when the value made from the same token is nil (`value.go:84-86`) |
| ValueEvents.BoolAgreesWithValue | valueevent.go:123-132 | for a keyword token the event's boolean conversion agrees with the value model's |
| ValueEvents.EventExamples | valueevent.go:59-72 | `-42` converts as int but not as uint; `23` converts as both |
| ParseSpec.ErrorString | parser.go:59-61 | an error event prints as `Error at <position>: <message>`; `ErrorStringInjective` shows the position and message can be read back |
| ParseSpec.ErrorStringInjective | parser.go:59-61 | two error events with the same text have the same position and the same message |
| ParseSpec.ErrorStringExample | parser.go:59-61 | an error at the zero position prints with `Col 0 (Offset 0)` |
| ParseSpec.ToLog | parser.go:105-108 | the event log and the emitted sequence determine each other |
| ParseSpec.Emit | parser.go:105-108 | emitting appends one event, updating the bracket nesting and the error count accordingly |
| ParseSpec.Errorf | parser.go:111-117 | appends one error at the current token's position and returns false |
| ParseSpec.Peek | parser.go:120-129 | the next token is the first one not yet consumed, if any |
| ParseSpec.IsNext | parser.go:132-135 | holds exactly when there is a next token and its kind is one of those given |
| ParseSpec.Advance | parser.go:138-155 | consumes the next token, if any, as the current one; the result is whether there was one |
| ParseSpec.IsToken | parser.go:158-166 | holds exactly when the current token has the kind; otherwise one error, "unexpected end of input" or "expected <kind>, got <kind>" |
| ParseSpec.UpdateState | parser.go:174-196 | only moves the section forward and changes nothing else but the events |
| ParseSpec.UpdateStateKeepsNesting | parser.go:174-196 | after a forward section change the open brackets are those of the new section |
| ParseSpec.UpdateStateEvents | parser.go:174-196 | start→ordered opens a list, start→labeled opens a map, ordered→labeled closes the list and opens a map, →eof closes what is open |
| ParseSpec.IsValue | parser.go:388-395 | holds exactly for value tokens; otherwise one error "expected value, got <kind>" |
| ParseSpec.BooleanPrefix | parser.go:253-264 | keeps the section, the nesting and the error discipline |
| ParseSpec.BooleanPrefixEvents | parser.go:253-264 | `^name` adds `MapKey(name)` and `Value(boolean "true")`, `!name` the same with "false" |
| ParseSpec.BooleanPrefixWithoutName | parser.go:253-264 | a non-identifier after the prefix adds exactly the error "expected Identifier, got <kind>" at that token |
| ParseSpec.DictPair | parser.go:367-385 | a `key:value` pair keeps the section, the nesting and the error discipline; its events are stated by `ParseShapes.DictEntryEvents` and `DictPairWithoutSeparator` |
| ParseSpec.DictEntry | parser.go:358-364 | a map entry keeps the section, the nesting and the error discipline; its events are stated by `ParseShapes.DictEntryEvents` |
| ParseSpec.DictValue | parser.go:339-355 | a map closes what it opens on success and errs at most once; its events are stated by `ParseShapes.DictValueEvents` and `DictValueBadPair` |
| ParseSpec.ListValue | parser.go:316-336 | a list closes what it opens on success and errs at most once; its events are stated by `ParseShapes.ListValueEvents` and `ListValueBadItem` |
| ParseSpec.ValueContent | parser.go:288-313 | a right-hand side keeps the section, the nesting and the error discipline; which construct it parses is stated by `ParseShapes.ValueContentIsList`, `ValueContentIsMap` and `ValueContentNotAValue` |
| ParseSpec.ScalarValueEvents | parser.go:288-313 | a value not followed by `:` or `;` adds exactly its value event |
| ParseSpec.Assignment | parser.go:267-285 | `name=value` keeps the section, the nesting and the error discipline; a non-value after `=` is stated by `ParseShapes.AssignmentNotAValue` |
| ParseSpec.AssignmentWithoutValue | parser.go:267-285 | `name=` followed by `,` or EOF adds `MapKey(name)` and `Value(zero)` |
| ParseSpec.Field | parser.go:218-250 | a field moves the section only forward, enters it with the right brackets, and leaves them open on success or errs exactly once |
| ParseSpec.OrderedValueRefused | parser.go:234-237 | a bare value or empty segment, with ordered values off or in the labeled section, adds exactly "ordered value not allowed here" at that token |
| ParseSpec.FieldList | parser.go:199-215 | the field loop ends in the eof section with every bracket closed and no new error, or stops at exactly one error |
| ParseSpec.ParseTokensOutcome | parser.go:398-416 | a parse never closes what it did not open, emits at most one error, as its last event, and on lexer output without error closes every bracket |
| ParseSpec.LeadingEofYieldsNothing | parser.go:186-203 | a token list that is only EOF (blank input) yields no events |
| ParseSpec.OrderedThenLabeledExample | parser.go:174-250 | `john, age=30` yields ListStart, Value(john), ListEnd, MapStart, MapKey(age), Value(30), MapEnd |
| ParseShapes.EventsAppend | parser.go:105-108 | the events of a log extended by a sequence are the old events followed by that sequence |
| ParseShapes.ValueContentIsList | parser.go:303-305 | a value followed by `;` is parsed as a list |
| ParseShapes.ValueContentIsMap | parser.go:289-301 | a `^`/`!` prefix, or a value followed by `:`, is parsed as a map |
| ParseShapes.ValueContentNotAValue | parser.go:288-296 | any other non-value adds exactly the error "expected value, got <kind>" at that token |
| ParseShapes.AssignmentNotAValue | parser.go:267-285 | `name=` followed by a token that starts no value adds `MapKey(name)` and then exactly "expected value, got <kind>" at that token |
| ParseShapes.AssignmentErrorToken | parser.go:267-285 | an Error token after `=` is reported as "expected value, got Error" after the key |
| ParseShapes.ItemEventsAt | parser.go:324-332 | the item events are one `Value` per item, the `k`-th for the value after the `k`-th `;` |
| ParseShapes.ListLoopItems | parser.go:324-332 | the item loop takes `n` well-formed `;value` items, adds their values in order and succeeds at the token after them |
| ParseShapes.ListLoopBadItem | parser.go:324-332 | after `n` good items, a `;` before a non-value adds the items and then exactly "expected value, got <kind>" at that token |
| ParseShapes.ListValueEvents | parser.go:316-337 | `v0;v1;…;vn` before a token other than `;` adds `ListStart`, `Value(v0)`…`Value(vn)` and `ListEnd`, and stops on that token |
| ParseShapes.ListValueBadItem | parser.go:316-337 | a list whose `;` is followed by a non-value adds `ListStart`, the values so far, then exactly the "expected value" error at that token, with no `ListEnd` |
| ParseShapes.MoreEnd | parser.go:347-351 | the entries after the first end within the token list |
| ParseShapes.DictEntryEvents | parser.go:358-385 | a well-formed entry (`^name`, `!name` or `key:value`) adds its `MapKey` and `Value` events and moves past it |
| ParseShapes.DictPairWithoutSeparator | parser.go:367-377 | a value not followed by `:` where an entry belongs adds its `MapKey`, then exactly "expected PairSeparator, got <kind>" at the token found instead |
| ParseShapes.DictLoopEntries | parser.go:347-351 | the entry loop takes `n` well-formed `;`-separated entries, adds their events in order and succeeds at the token after them |
| ParseShapes.DictLoopBadPair | parser.go:347-351 | after `n` good entries, a `;` and a value without `:` adds the entries, that key and then the PairSeparator error |
| ParseShapes.DictValueEvents | parser.go:339-355 | a well-formed map adds `MapStart`, a `MapKey`/`Value` pair per entry in order (`^` gives true, `!` false) and `MapEnd` |
| ParseShapes.PairErrorText | parser.go:158-166 | the PairSeparator error reads "expected PairSeparator, got <kind>" for the token found instead of `:` |
| ParseShapes.DictValueBadPair | parser.go:339-385 | a map whose `;` is followed by a value without `:` adds `MapStart`, the entries so far, that key and the PairSeparator error, with no `MapEnd` |
| ParseShapes.FirstAssignment | parser.go:174-250 | input that starts `name =` opens the top-level map; a failing assignment's events are the whole parse, and an assignment that uses up the tokens is followed only by `MapEnd` |
| ParseShapes.FirstMapValue | parser.go:267-301 | after `name=`, a `^`/`!` or a value followed by `:` starts a map inside the top-level map, and a map that uses up the tokens ends the parse with one more `MapEnd` |
| ParseShapes.LabeledMapParses | parser_test.go:166-176 | `settings=host:localhost;port:8080` gives `MapStart`, `MapKey(settings)`, `MapStart`, `MapKey(host)`, `Value(localhost)`, `MapKey(port)`, `Value(8080)`, `MapEnd`, `MapEnd` |
| ParseShapes.PrefixMapParses | parser_test.go:178-188 | `features=^enabled;!disabled` gives the map of `enabled` to boolean true and `disabled` to boolean false inside the top-level map |
| ParseShapes.MixedMapAndListFails | parser_test.go:297 | `settings=key:value;value` gives `MapStart`, `MapKey(settings)`, `MapStart`, `MapKey(key)`, `Value(value)`, `MapKey(value)` and then "expected PairSeparator, got EOF" |
| ParseShapes.ListWithoutItemFails | parser_test.go:298 | `a=1;` gives `MapStart`, `MapKey(a)`, `ListStart`, `Value(1)` and then "expected value, got EOF" |
| ParseShapes.MissingMapKeyFails | parser_test.go:299 | `settings=:value` gives `MapStart`, `MapKey(settings)` and then "expected value, got PairSeparator" |
| ParseShapes.TrailingErrorIgnored | parser.go:199-215 | the tokens of `a=1 @` parse as the map `a=1` without an error: the Error token after the field is passed over |
| Parsers.Parser.constructor | parser.go:402-412 | a fresh parser holds no token, is in the start section and has emitted nothing |
| Parsers.Parser.Pull | parser.go:402-403 | the pulled iterator's `next`: the following token and true, or false at the end |
| Parsers.Parser.Emit | parser.go:105-108 | as `ParseSpec.Emit` |
| Parsers.Parser.Errorf | parser.go:111-117 | as `ParseSpec.Errorf` |
| Parsers.Parser.Peek | parser.go:120-129 | as `ParseSpec.Peek`, filling the lookahead slot without changing the abstract state |
| Parsers.Parser.IsNext | parser.go:132-135 | as `ParseSpec.IsNext` |
| Parsers.Parser.Advance | parser.go:138-155 | as `ParseSpec.Advance`, consuming the lookahead slot first |
| Parsers.Parser.IsToken | parser.go:158-166 | as `ParseSpec.IsToken` |
| Parsers.Parser.UpdateState | parser.go:174-196 | as `ParseSpec.UpdateState` |
| Parsers.Parser.IsValue | parser.go:388-395 | as `ParseSpec.IsValue` |
| Parsers.Parser.ParseBooleanPrefix | parser.go:253-264 | as `ParseSpec.BooleanPrefix` |
| Parsers.Parser.ParseDictPair | parser.go:367-385 | as `ParseSpec.DictPair` |
| Parsers.Parser.ParseDictEntry | parser.go:358-364 | as `ParseSpec.DictEntry` |
| Parsers.Parser.ParseDictValue | parser.go:339-355 | as `ParseSpec.DictValue`, its loop over `;`-separated entries included |
| Parsers.Parser.ParseListValue | parser.go:316-336 | as `ParseSpec.ListValue`, its loop over `;`-separated items included |
| Parsers.Parser.ParseValueContent | parser.go:288-313 | as `ParseSpec.ValueContent` |
| Parsers.Parser.ParseAssignment | parser.go:267-285 | as `ParseSpec.Assignment` |
| Parsers.Parser.ParseField | parser.go:218-250 | as `ParseSpec.Field` |
| Parsers.Parser.ParseFieldList | parser.go:199-215 | as `ParseSpec.FieldList`: the loop that advances past whatever ends a field |
| Parsers.ParseTokens | parser.go:398-416 | the events are `ParseSpec.ParseTokens`, with the first option given or the defaults |
| Parsers.Parse | parser.go:419-421 | the events of the lexer's tokens for `input` |
| Builders.ContainsAny | builder.go:9-13 | holds exactly when some character of the text is among those given |
| Builders.NeedsQuoting | builder.go:9-13 | holds exactly when the text is empty, contains one of `` ,;:=\` `` or the space, or is `true`, `false` or `nil` |
| Builders.PlainTextExamples | builder.go:9-13 | `abc-123` and `123abc` need no quoting |
| Builders.SeparatorExamples | builder.go:9-13 | `hello world`, `a=b` and `a\b` need quoting |
| Builders.KeywordExamples | builder.go:9-13 | the empty text and the three keywords need quoting |
| Builders.Quote | builder.go:20 | a quoted text starts and ends with `"` |
| Builders.EscapeChar | builder.go:20 | an escape is the character itself or a backslash pair, and never a bare `"` |
| Builders.QuoteLexesAsOneString | builder.go:16-28 | a quoted text lexes as exactly one string token spanning all of it |
| Builders.FormatValue | builder.go:16-28 | a string that needs no quoting is emitted verbatim, one that does is quoted, nil is `nil`, anything else its printed form |
| Builders.StringValueReadsBack | builder.go:16-28 | a formatted string is never empty and never a keyword; it is either plain text without special characters or exactly one string lexeme |
| Builders.SplitJoin | builder.go:166-172 | fields without the separator are recovered by splitting the joined text |
| Builders.FormatAll | builder.go:115-118 | one formatted part per value, in order |
| Builders.PairParts | builder.go:148-153 | one `key<colon>value` part per pair of arguments, in order |
| Builders.PairPartsAppend | builder.go:148-153 | adding a pair at the end adds its part at the end |
| Builders.BuilderDefaults | builder.go:46-52 | the defaults put no spaces after separators or around `=` |
| Builders.Builder.constructor | builder.go:175-184 | a new builder has the given options, no fields and no labeled field |
| Builders.Builder.Ordered | builder.go:62-69 | requires that no labeled field exists; appends the formatted value and nothing else; since every labeled method sets `hasLabeled` and none clears it, ordered values precede labeled fields |
| Builders.Builder.Enable | builder.go:72-76 | appends `^name` and records a labeled field |
| Builders.Builder.Disable | builder.go:79-83 | appends `!name` and records a labeled field |
| Builders.Builder.Boolean | builder.go:86-91 | appends `^name` for true and `!name` for false, and records a labeled field |
| Builders.Builder.Labeled | builder.go:94-104 | appends `name`, the assignment sign with its optional spacing, and the formatted value |
| Builders.Builder.List | builder.go:107-128 | appends `name=` and the formatted values joined by `;` or `; ` |
| Builders.Builder.Pairs | builder.go:131-163 | requires an even count; appends `name=` and the `k:v` parts joined by `;` or `; ` |
| Builders.Builder.String | builder.go:166-172 | the fields joined by `,`, or by `, ` when the option is set |

## Left out

- The early stop when `yield` returns false (`done` in `lex.go:68-75` and `parser.go:105-108`) is not modelled, and neither is the laziness of `iter.Seq`/`iter.Pull`. The model collects the whole output. So the lexer is done only after an error, and the parser's `done` is dropped.
- `ToFloat` and `parseHexFloat` (`value.go:10-40, 117-162`; `valueevent.go:10-40, 75-120`) are floating point. Only their type guard is modelled, as `ToFloatGuard`.
- `strconv.Unquote` is Go's library for string literals. It is the parameter `unquote` of `ToString`.
- `unicode.IsLetter` is the parameter `letter`. It is constrained only on ASCII.
- Invalid UTF-8 in the input is not modelled. The input is a sequence of Unicode scalar values, and offsets are their UTF-8 widths, so `utf8.DecodeRuneInString`'s error rune does not arise.
- `fmt` formatting:
  - `%#U` in the unexpected-character message is rendered as `U+` and at least four upper-case hex digits, followed by the quoted rune when it is printable (`IsPrintable`).
  - `Token.String` (`token.go:67-69`) is not modelled.
  - `%q` in `formatValue` is a quote that escapes only `"`, `\`, newline, carriage return and tab. Go also escapes other control and non-printable runes.
  - `fmt.Sprint` of an arbitrary value is the `printed` text of the `Other` argument.
- The value that `strconv` returns alongside a range error is dropped. Only the error is kept.
- Builders.Builder.Ordered: the panic on an ordered value after a labeled field is a precondition.
- Builders.Builder.Pairs: the panic on an odd argument count is a precondition.
- The builder methods return nothing rather than the builder for chaining. `NewBuilder` is the constructor given `BuilderDefaults()`.
- Test cases written against APIs absent from these sources are not modelled: `LabeledList`, `LabeledDict`, `Err`, free `IsZero`, `IsFloat`/`IsSigned` and `BooleanValueType`.
- Lexers.Lexer.Dispatch: its contract states that the move keeps the loop invariant and decreases the measure. The exact move is stated by the per-state `Lex…` methods it calls.
- ParseSpec.DictPair, ParseSpec.DictEntry, ParseSpec.DictValue: their own contracts state the section, nesting and single-error discipline. The events are stated in `ParseShapes` for well-formed maps and for a `;` before a value without `:`. A `:` before a non-value and `^`/`!` without a name inside a map are covered only by the discipline, and by `IsValue`/`IsToken` for the error text.
- ParseSpec.ListValue, ParseSpec.ValueContent, ParseSpec.Assignment: their own contracts state the discipline only. The events are stated in `ParseShapes` for every list shape, for each branch of `ValueContent`, and for a non-value after `=`. A map value after `=` is covered by `ValueContentIsMap` together with the map lemmas.
- ParseShapes: the list and map lemmas are stated for token lists of a given shape. Lexer output is such a list, but no lemma derives the shape from the input text; the `parser_test.go` cases are stated over tokens of the kinds the lexer gives for those texts.
- LexSpec.IsPrintable: `strconv.IsPrint` is followed below U+0100 only (printable ASCII, and Latin-1 from U+00A1 without the soft hyphen). Every rune from U+0100 on counts as printable, so `%#U` quotes it.
- The per-state move functions of `Lexers` (`TopMove` … `BinaryDigitsContinueMove`) and `Transition` are definitions with no contract of their own. Each move is stated by its `…Sound` lemma and by the `Lexer` method of that state, which is proved to make that move.
- Values.IsZero, Values.IsNil and ValueEvents.IsNil (`value.go:79-86`, `valueevent.go:42-44`) are predicates defined by the source's comparison. `ValueFromToken` and `NilAgreesWithValue` state when they hold.
- The rune classes of `classify.go` (`isSpace`, `isDigit`, `isHexDigit`, `isOctalDigit`, `isBinaryDigit`, `isStringStart`, `isNumericSign`, `isIdentifierContinue`) are predicates defined by the same expressions. They carry no separate contract.
