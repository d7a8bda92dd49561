/**
 * What the lexer produces, stated without its state machine: each sub-grammar
 * of lex.go as a scanning function over the rune sequence, and `Tokenize`,
 * the token list for the input from a given rune index on.
 *
 * Indices count runes. The position of index `i` is its byte offset (the
 * UTF-8 width of the runes before it) and its column `i + 1`.
 */
module LexSpec {
  import opened Classify
  import opened Tokens
  import opened Positions
  import opened Utf8

  /** The rune at index `i`, or EOF past the end (what `peek` returns). */
  function At(input: seq<char>, i: nat): int {
    if i < |input| then input[i] as int else EOF
  }

  function PosAt(input: seq<char>, i: nat): (p: Position)
    requires i <= |input|
    ensures p.column == i + 1 && p.offset >= i
  {
    Position(PrefixWidth(input, i), i + 1)
  }

  /** The runes from index `i` up to `j`: the text of a token. */
  function Span(input: seq<char>, i: nat, j: nat): (t: string)
    requires i <= j <= |input|
    ensures |t| == j - i
    decreases j - i
  {
    if i == j then "" else Span(input, i, j - 1) + [input[j - 1]]
  }

  /** Where the maximal run of runes satisfying `p` that starts at `i` ends. */
  function Run(input: seq<char>, i: nat, p: int -> bool): (e: nat)
    requires i <= |input|
    ensures i <= e <= |input|
    ensures !p(At(input, e)) || e == |input|
    decreases |input| - i
  {
    if i < |input| && p(input[i] as int) then Run(input, i + 1, p) else i
  }

  predicate DecimalOrSeparator(ch: int) { IsDigit(ch) || ch == '_' as int }
  predicate HexOrSeparator(ch: int) { IsHexDigit(ch) || ch == '_' as int }
  predicate OctalOrSeparator(ch: int) { IsOctalDigit(ch) || ch == '_' as int }
  predicate BinaryOrSeparator(ch: int) { IsBinaryDigit(ch) || ch == '_' as int }

  predicate IsExponentMark(ch: int) { ch == 'e' as int || ch == 'E' as int }
  predicate IsHexExponentMark(ch: int) { ch == 'p' as int || ch == 'P' as int }

  const UnterminatedString := "unterminated string"
  const UnterminatedEscape := "unterminated escape sequence"
  const HexDigitMessage := "expected hex digit"
  const OctalDigitMessage := "expected octal digit"
  const BinaryDigitMessage := "expected binary digit"
  const DecimalExponentMessage := "expected digit after exponent"
  const HexExponentMessage := "expected digit after hex exponent"

  /** The outcome of scanning one token: its kind and where it ends, or an error message. */
  datatype Scan = Lexeme(kind: TokenType, end: nat) | Fail(message: string)

  /** The three keywords get their own kinds; every other identifier text is an Identifier. */
  function KeywordKind(text: string): (k: TokenType)
    ensures k == TokenTrue <==> text == "true"
    ensures k == TokenFalse <==> text == "false"
    ensures k == TokenNil <==> text == "nil"
    ensures k in {TokenTrue, TokenFalse, TokenNil, TokenIdentifier}
  {
    if text == "true" then TokenTrue
    else if text == "false" then TokenFalse
    else if text == "nil" then TokenNil
    else TokenIdentifier
  }

  // ---------------------------------------------------------------------------
  // Sub-grammars.

  /** String content from `i` on: ends after the opening quote's twin; a backslash takes the next rune along. */
  function ScanString(input: seq<char>, i: nat, quote: int): (r: Scan)
    requires i <= |input|
    ensures r.Lexeme? ==> r.kind == TokenString && i < r.end <= |input| && At(input, r.end - 1) == quote
    decreases |input| - i
  {
    if i == |input| then Fail(UnterminatedString)
    else if input[i] as int == quote then Lexeme(TokenString, i + 1)
    else if input[i] == '\\' then
      if i + 1 == |input| then Fail(UnterminatedEscape)
      else ScanString(input, i + 2, quote)
    else ScanString(input, i + 1, quote)
  }

  /** After an exponent mark: an optional sign, then at least one decimal digit. */
  function ScanExponent(input: seq<char>, i: nat, message: string): (r: Scan)
    requires i <= |input|
    ensures r.Lexeme? ==> r.kind == TokenNumber && i < r.end <= |input|
    ensures r.Fail? ==> r.message == message
  {
    var k := if IsNumericSign(At(input, i)) then i + 1 else i;
    if !IsDigit(At(input, k)) then Fail(message)
    else Lexeme(TokenNumber, Run(input, k, DecimalOrSeparator))
  }

  /** Decimal fraction digits, then an optional exponent. */
  function ScanFraction(input: seq<char>, i: nat): (r: Scan)
    requires i <= |input|
    ensures r.Lexeme? ==> r.kind == TokenNumber && i <= r.end <= |input|
  {
    var e := Run(input, i, DecimalOrSeparator);
    if IsExponentMark(At(input, e)) then ScanExponent(input, e + 1, DecimalExponentMessage)
    else Lexeme(TokenNumber, e)
  }

  /** Decimal digits, then an optional fraction or exponent. */
  function ScanDecimal(input: seq<char>, i: nat): (r: Scan)
    requires i <= |input|
    ensures r.Lexeme? ==> r.kind == TokenNumber && i <= r.end <= |input|
  {
    var e := Run(input, i, DecimalOrSeparator);
    if At(input, e) == '.' as int then ScanFraction(input, e + 1)
    else if IsExponentMark(At(input, e)) then ScanExponent(input, e + 1, DecimalExponentMessage)
    else Lexeme(TokenNumber, e)
  }

  /** Hex fraction digits, then an optional `p` exponent. */
  function ScanHexFraction(input: seq<char>, i: nat): (r: Scan)
    requires i <= |input|
    ensures r.Lexeme? ==> r.kind == TokenNumber && i <= r.end <= |input|
  {
    var e := Run(input, i, HexOrSeparator);
    if IsHexExponentMark(At(input, e)) then ScanExponent(input, e + 1, HexExponentMessage)
    else Lexeme(TokenNumber, e)
  }

  /** Hex digits, then an optional fraction or `p` exponent. */
  function ScanHexMantissa(input: seq<char>, i: nat): (r: Scan)
    requires i <= |input|
    ensures r.Lexeme? ==> r.kind == TokenNumber && i <= r.end <= |input|
  {
    var e := Run(input, i, HexOrSeparator);
    if At(input, e) == '.' as int then ScanHexFraction(input, e + 1)
    else if IsHexExponentMark(At(input, e)) then ScanExponent(input, e + 1, HexExponentMessage)
    else Lexeme(TokenNumber, e)
  }

  /** After `0x`: at least one hex digit must follow. */
  function ScanHex(input: seq<char>, i: nat): (r: Scan)
    requires i <= |input|
    ensures r.Lexeme? ==> r.kind == TokenNumber && i < r.end <= |input|
  {
    if !IsHexDigit(At(input, i)) then Fail(HexDigitMessage)
    else ScanHexMantissa(input, i)
  }

  /** After `0o` or `0b`: at least one digit of the base, then its digits and separators. */
  function ScanBased(input: seq<char>, i: nat, digit: int -> bool, digitOrSeparator: int -> bool, message: string): (r: Scan)
    requires i <= |input|
    requires forall ch :: digit(ch) ==> digitOrSeparator(ch)
    requires !digit(EOF)
    ensures r.Lexeme? ==> r.kind == TokenNumber && i < r.end <= |input|
    ensures r.Fail? ==> r.message == message
  {
    if !digit(At(input, i)) then Fail(message)
    else Lexeme(TokenNumber, Run(input, i, digitOrSeparator))
  }

  /** After a leading `0`, from `i` on: a base prefix, a fraction, more decimal digits, or the lone zero. */
  function ScanZero(input: seq<char>, i: nat): (r: Scan)
    requires 0 < i <= |input|
    ensures r.Lexeme? ==> r.kind == TokenNumber && i <= r.end <= |input|
  {
    var c := At(input, i);
    if c == 'x' as int || c == 'X' as int then ScanHex(input, i + 1)
    else if c == 'o' as int || c == 'O' as int then
      ScanBased(input, i + 1, IsOctalDigit, OctalOrSeparator, OctalDigitMessage)
    else if c == 'b' as int || c == 'B' as int then
      ScanBased(input, i + 1, IsBinaryDigit, BinaryOrSeparator, BinaryDigitMessage)
    else if IsDigit(c) || c == '_' as int then ScanDecimal(input, i)
    else if c == '.' as int then ScanFraction(input, i + 1)
    else Lexeme(TokenNumber, i)
  }

  /** A number: optional sign, then `0x`/`0o`/`0b` with digits, a lone `0`, or a decimal number. */
  function ScanNumber(input: seq<char>, i: nat): (r: Scan)
    requires i <= |input|
    ensures r.Lexeme? ==> r.kind == TokenNumber && i <= r.end <= |input|
  {
    var k := if IsNumericSign(At(input, i)) then i + 1 else i;
    if At(input, k) == '0' as int then ScanZero(input, k + 1)
    else ScanDecimal(input, k)
  }

  /** Hexadecimal notation of `n`, upper case, padded with zeros to at least `width` digits. */
  function HexNumeral(n: nat, width: nat): (r: string)
    ensures |r| >= width
    ensures forall k :: 0 <= k < |r| ==> '0' <= r[k] <= '9' || 'A' <= r[k] <= 'F'
    decreases width + n
  {
    if n == 0 && width == 0 then ""
    else HexNumeral(n / 16, if width > 0 then width - 1 else 0) + [HexDigit(n % 16)]
  }

  /** The upper-case hexadecimal digit of value `d`. */
  function HexDigit(d: nat): (r: char)
    requires d < 16
    ensures '0' <= r <= '9' || 'A' <= r <= 'F'
  {
    if d < 10 then ('0' as int + d) as char else ('A' as int + d - 10) as char
  }

  /**
   * Whether `%#U` shows the rune after its code point, as Go's `strconv.IsPrint`
   * decides: exact up to U+00FF (the ASCII space through `~`, then Latin-1 from
   * U+00A1 without the soft hyphen U+00AD); every rune from U+0100 on counts as printable.
   */
  predicate IsPrintable(c: char) {
    var n := c as int;
    (0x20 <= n < 0x7F) || (0xA1 <= n && n != 0xAD)
  }

  const UnexpectedRune := "unexpected character: U+"

  /** The lexer's message for a rune that starts no token: `%#U`, the code point and, when printable, the quoted rune. */
  function UnexpectedCharacter(c: char): (m: string)
    ensures |m| > |UnexpectedRune| && m[..|UnexpectedRune|] == UnexpectedRune
    ensures m[|m| - 1] == '\'' <==> IsPrintable(c)
  {
    UnexpectedRune + HexNumeral(c as int, 4) + (if IsPrintable(c) then " '" + [c] + "'" else "")
  }

  /** The four-digit numerals of U+0040 and U+0001. */
  lemma HexNumeralExamples()
    ensures HexNumeral(64, 4) == ['0', '0', '4', '0']
    ensures HexNumeral(1, 4) == ['0', '0', '0', '1']
  {
    assert HexDigit(0) == '0' && HexDigit(1) == '1' && HexDigit(4) == '4';
    assert HexNumeral(0, 0) == [];
    assert HexNumeral(0, 1) == ['0'];
    assert HexNumeral(0, 2) == ['0', '0'];
    assert HexNumeral(0, 3) == ['0', '0', '0'];
    assert HexNumeral(4, 3) == ['0', '0', '4'];
  }

  /** A printable rune is quoted after its code point; a control rune is not. */
  lemma UnexpectedCharacterExamples()
    ensures UnexpectedCharacter('@') == "unexpected character: U+0040 '@'"
    ensures UnexpectedCharacter(1 as char) == "unexpected character: U+0001"
  {
    HexNumeralExamples();
  }

  /** Where an identifier whose first letter precedes `i` ends. */
  function IdentifierRun(input: seq<char>, letter: int -> bool, i: nat): (e: nat)
    requires i <= |input|
    ensures i <= e <= |input|
    ensures e == |input| || !IsIdentifierContinue(letter, input[e] as int)
    decreases |input| - i
  {
    if i < |input| && IsIdentifierContinue(letter, input[i] as int) then IdentifierRun(input, letter, i + 1) else i
  }

  /** The token starting at the non-blank rune `i`, by the rune's class. */
  function ScanToken(input: seq<char>, letter: int -> bool, i: nat): (r: Scan)
    requires i < |input|
    ensures r.Lexeme? ==> i < r.end <= |input|
  {
    var ch := input[i] as int;
    if ch == '^' as int || ch == '!' as int then Lexeme(TokenFieldPrefix, i + 1)
    else if ch == '=' as int then Lexeme(TokenAssign, i + 1)
    else if ch == ',' as int then Lexeme(TokenFieldSeparator, i + 1)
    else if ch == ';' as int then Lexeme(TokenListSeparator, i + 1)
    else if ch == ':' as int then Lexeme(TokenPairSeparator, i + 1)
    else if IsStringStart(ch) then ScanString(input, i + 1, ch)
    else if IsNumericSign(ch) || IsDigit(ch) then
      var r := ScanNumber(input, i);
      // A number consumes at least its sign or first digit.
      NumberIsNonEmpty(input, i);
      r
    else if letter(ch) then
      var e := IdentifierRun(input, letter, i + 1);
      Lexeme(KeywordKind(Span(input, i, e)), e)
    else Fail(UnexpectedCharacter(input[i]))
  }

  lemma NumberIsNonEmpty(input: seq<char>, i: nat)
    requires i < |input| && (IsNumericSign(input[i] as int) || IsDigit(input[i] as int))
    ensures ScanNumber(input, i).Lexeme? ==> ScanNumber(input, i).end > i
  {
  }

  /** The token list from index `i` on: blanks skipped, one token per lexeme, ending in EOF or an error. */
  function Tokenize(input: seq<char>, letter: int -> bool, i: nat): (t: seq<Token>)
    requires i <= |input|
    ensures |t| > 0 && t[|t| - 1].typ in {TokenEOF, TokenError}
    decreases |input| - i, 1
  {
    if i == |input| then [Token(TokenEOF, PosAt(input, i), "")]
    else if IsSpace(input[i] as int) then Tokenize(input, letter, i + 1)
    else TokenizeAt(input, letter, i)
  }

  /** The token list from the non-blank rune `i` on: its token, then the rest. */
  function TokenizeAt(input: seq<char>, letter: int -> bool, i: nat): (t: seq<Token>)
    requires i < |input|
    ensures |t| > 0 && t[|t| - 1].typ in {TokenEOF, TokenError}
    decreases |input| - i, 0
  {
    match ScanToken(input, letter, i)
    case Fail(message) => [Token(TokenError, PosAt(input, i), message)]
    case Lexeme(kind, e) => [Token(kind, PosAt(input, i), Span(input, i, e))] + Tokenize(input, letter, e)
  }

  /** What the lexer yields for the whole input. */
  function Lex(input: seq<char>, letter: int -> bool): (t: seq<Token>)
    ensures WellFormed(input, t, 0)
  {
    TokenizeWellFormed(input, letter, 0);
    Tokenize(input, letter, 0)
  }

  // ---------------------------------------------------------------------------
  // What every token list satisfies.

  /** The list is non-empty, its last token is EOF or Error, and no earlier token is either. */
  predicate EndsOnce(t: seq<Token>) {
    |t| > 0 && (t[|t| - 1].typ == TokenEOF || t[|t| - 1].typ == TokenError) &&
    forall k :: 0 <= k < |t| - 1 ==> t[k].typ != TokenEOF && t[k].typ != TokenError
  }

  /**
   * A token sits at a rune index from `lo` on, its position is that index's position,
   * and its text is the input there (an Error token carries a message instead; EOF has
   * no text). A token that is neither starts with a rune that is not blank.
   */
  predicate Located(input: seq<char>, tok: Token, lo: nat) {
    var c := tok.pos.column;
    lo < c <= |input| + 1 && tok.pos == PosAt(input, c - 1) &&
    (tok.typ != TokenError ==> c - 1 + |tok.val| <= |input| && tok.val == input[c - 1 .. c - 1 + |tok.val|]) &&
    (tok.typ != TokenError && tok.typ != TokenEOF ==> |tok.val| > 0 && !IsSpace(tok.val[0] as int))
  }

  /** Each token ends at or before the column where the next one starts. */
  predicate InOrder(t: seq<Token>) {
    forall k :: 0 <= k < |t| - 1 ==> t[k].pos.column + |t[k].val| <= t[k + 1].pos.column
  }

  /** The EOF token, when there is one, has no text and the end-of-input position. */
  predicate EofAtEnd(input: seq<char>, t: seq<Token>) {
    forall k :: 0 <= k < |t| && t[k].typ == TokenEOF ==> t[k].val == "" && t[k].pos == PosAt(input, |input|)
  }

  predicate WellFormed(input: seq<char>, t: seq<Token>, lo: nat) {
    EndsOnce(t) && InOrder(t) && EofAtEnd(input, t) && forall k :: 0 <= k < |t| ==> Located(input, t[k], lo)
  }

  lemma {:induction false} SpanIsSlice(input: seq<char>, i: nat, j: nat)
    requires i <= j <= |input|
    ensures Span(input, i, j) == input[i..j]
    decreases j - i
  {
    if i < j {
      SpanIsSlice(input, i, j - 1);
      assert input[i..j] == input[i..j - 1] + [input[j - 1]];
    }
  }

  /** A lexeme is never of kind EOF or Error. */
  lemma LexemeKind(input: seq<char>, letter: int -> bool, i: nat)
    requires i < |input|
    ensures var r := ScanToken(input, letter, i);
      r.Lexeme? ==> r.kind != TokenEOF && r.kind != TokenError
  {
  }

  /** Putting a located lexeme in front of a well-formed list that starts at or after its end keeps it well formed. */
  lemma ConsWellFormed(input: seq<char>, tok: Token, rest: seq<Token>, lo: nat, e: nat)
    requires tok.typ != TokenEOF && tok.typ != TokenError && Located(input, tok, lo)
    requires tok.pos.column - 1 + |tok.val| == e && WellFormed(input, rest, e)
    ensures WellFormed(input, [tok] + rest, lo)
  {
    var t := [tok] + rest;
    forall k | 0 <= k < |t| ensures Located(input, t[k], lo) {
      if k > 0 { assert t[k] == rest[k - 1]; }
    }
    forall k | 0 <= k < |t| - 1 ensures t[k].pos.column + |t[k].val| <= t[k + 1].pos.column {
      if k > 0 { assert t[k] == rest[k - 1] && t[k + 1] == rest[k]; }
      else { assert t[1] == rest[0]; }
    }
  }

  /**
   * Lexing terminates with exactly one EOF or Error token, the last one; the tokens
   * come in input order, each at its own position with its own text.
   */
  lemma {:induction false} TokenizeWellFormed(input: seq<char>, letter: int -> bool, i: nat)
    requires i <= |input|
    ensures WellFormed(input, Tokenize(input, letter, i), i)
    decreases |input| - i, 1
  {
    if i == |input| {
    } else if IsSpace(input[i] as int) {
      TokenizeWellFormed(input, letter, i + 1);
    } else {
      TokenizeAtWellFormed(input, letter, i);
    }
  }

  lemma {:induction false} TokenizeAtWellFormed(input: seq<char>, letter: int -> bool, i: nat)
    requires i < |input| && !IsSpace(input[i] as int)
    ensures WellFormed(input, TokenizeAt(input, letter, i), i)
    decreases |input| - i, 0
  {
    LexemeKind(input, letter, i);
    match ScanToken(input, letter, i)
    case Fail(message) =>
    case Lexeme(kind, e) =>
      var tok := Token(kind, PosAt(input, i), Span(input, i, e));
      SpanIsSlice(input, i, e);
      TokenizeWellFormed(input, letter, e);
      ConsWellFormed(input, tok, Tokenize(input, letter, e), i, e);
  }

  /** Blank input, or a blank rest of it, yields the EOF token alone. */
  lemma {:induction false} BlankYieldsEof(input: seq<char>, letter: int -> bool, i: nat)
    requires i <= |input|
    requires forall j :: i <= j < |input| ==> IsSpace(input[j] as int)
    ensures Tokenize(input, letter, i) == [Token(TokenEOF, PosAt(input, |input|), "")]
    decreases |input| - i
  {
    if i < |input| {
      BlankYieldsEof(input, letter, i + 1);
    }
  }

  /** On ASCII text every byte offset is one less than the column. */
  lemma {:induction false} AsciiPrefixWidth(input: seq<char>, i: nat)
    requires i <= |input| && IsAscii(input)
    ensures PrefixWidth(input, i) == i
  {
    if i > 0 {
      AsciiPrefixWidth(input, i - 1);
    }
  }

  lemma AsciiColumns(input: seq<char>, letter: int -> bool)
    requires IsAscii(input)
    ensures forall tok :: tok in Lex(input, letter) ==> tok.pos.column == tok.pos.offset + 1
  {
    TokenizeWellFormed(input, letter, 0);
    forall tok | tok in Lex(input, letter) ensures tok.pos.column == tok.pos.offset + 1 {
      var k :| 0 <= k < |Lex(input, letter)| && Lex(input, letter)[k] == tok;
      assert Located(input, tok, 0);
      AsciiPrefixWidth(input, tok.pos.column - 1);
    }
  }

  /** Blanks only, with a newline among them: EOF at offset 7, column 8 (no line reset). */
  lemma BlankExample(letter: int -> bool)
    ensures Lex("   \t\n  ", letter) == [Token(TokenEOF, Position(7, 8), "")]
  {
    BlankYieldsEof("   \t\n  ", letter, 0);
  }

  /** A hex prefix without a hex digit: the error carries the number's start, offset 2. */
  lemma HexErrorExample(letter: int -> bool)
    requires LetterClass(letter)
    ensures Lex("h=0xGHI", letter) == [Token(TokenIdentifier, Position(0, 1), "h"), Token(TokenAssign, Position(1, 2), "="),
                                      Token(TokenError, Position(2, 3), "expected hex digit")]
  {
    var input := "h=0xGHI";
    assert letter('h' as int) && !letter('=' as int);
    assert IdentifierRun(input, letter, 1) == 1;
    assert ScanToken(input, letter, 2) == Fail(HexDigitMessage);
    assert PosAt(input, 1) == Position(1, 2) && PosAt(input, 2) == Position(2, 3);
    assert Tokenize(input, letter, 2) == [Token(TokenError, Position(2, 3), HexDigitMessage)];
    assert ScanToken(input, letter, 1) == Lexeme(TokenAssign, 2) && Span(input, 1, 2) == "=";
    assert Tokenize(input, letter, 1) == [Token(TokenAssign, Position(1, 2), "=")] + Tokenize(input, letter, 2);
    assert Span(input, 0, 1) == "h";
  }
}
