/**
 * The lexer of lex.go as it runs: a `Lexer` object whose positions advance one
 * rune at a time, and one method per state function. The yield callback is
 * replaced by the `tokens` field, which every emitted token is appended to.
 *
 * The driver loop is proved to produce exactly `LexSpec.Lex`: at every state
 * the tokens emitted so far, followed by what that state still has to produce
 * (`Rest`), make up the whole token list.
 */
module Lexers {
  import opened Classify
  import opened Tokens
  import opened Positions
  import opened Utf8
  import opened LexSpec

  /** One constructor per state function of lex.go; `Stop` is the nil state. */
  datatype LexState =
    | Top
    | IdentifierOrKeyword
    | StringStart
    | StringContent(quote: int)
    | Number
    | DecimalDigits
    | DecimalFraction
    | DecimalFractionDigits
    | Exponent
    | ExponentDigits
    | HexDigits
    | HexDigitsContinue
    | HexFraction
    | HexFractionDigits
    | HexExponent
    | HexExponentDigits
    | OctalDigits
    | OctalDigitsContinue
    | BinaryDigits
    | BinaryDigitsContinue
    | Stop

  /** The index after `i`, or `i` at the end (where `next` does not move). */
  function Adv(input: seq<char>, i: nat): nat {
    if i < |input| then i + 1 else i
  }

  /**
   * What remains of the token begun at `s` when the machine is in state `st`
   * at index `p`: the sub-grammar of LexSpec that the state still has to scan.
   */
  function Resume(input: seq<char>, letter: int -> bool, st: LexState, s: nat, p: nat): (r: Scan)
    requires s <= p <= |input|
    requires st != Top && st != Stop
    ensures r.Lexeme? ==> p <= r.end <= |input|
  {
    match st
    case IdentifierOrKeyword =>
      var e := IdentifierRun(input, letter, p);
      Lexeme(KeywordKind(Span(input, s, e)), e)
    case StringStart => ScanString(input, Adv(input, p), At(input, p))
    case StringContent(quote) => ScanString(input, p, quote)
    case Number => ScanNumber(input, p)
    case DecimalDigits => ScanDecimal(input, p)
    case DecimalFraction => ScanFraction(input, Adv(input, p))
    case DecimalFractionDigits => ScanFraction(input, p)
    case Exponent => ScanExponent(input, Adv(input, p), DecimalExponentMessage)
    case ExponentDigits => Lexeme(TokenNumber, Run(input, p, DecimalOrSeparator))
    case HexDigits => ScanHex(input, p)
    case HexDigitsContinue => ScanHexMantissa(input, p)
    case HexFraction => ScanHexFraction(input, Adv(input, p))
    case HexFractionDigits => ScanHexFraction(input, p)
    case HexExponent => ScanExponent(input, Adv(input, p), HexExponentMessage)
    case HexExponentDigits => Lexeme(TokenNumber, Run(input, p, DecimalOrSeparator))
    case OctalDigits => ScanBased(input, p, IsOctalDigit, OctalOrSeparator, OctalDigitMessage)
    case OctalDigitsContinue => Lexeme(TokenNumber, Run(input, p, OctalOrSeparator))
    case BinaryDigits => ScanBased(input, p, IsBinaryDigit, BinaryOrSeparator, BinaryDigitMessage)
    case BinaryDigitsContinue => Lexeme(TokenNumber, Run(input, p, BinaryOrSeparator))
  }

  /** The tokens a finished scan of the token begun at `s` stands for. */
  function Finish(input: seq<char>, letter: int -> bool, s: nat, r: Scan): seq<Token>
    requires s <= |input|
    requires r.Lexeme? ==> s <= r.end <= |input|
  {
    match r
    case Fail(message) => [Token(TokenError, PosAt(input, s), message)]
    case Lexeme(kind, e) => [Token(kind, PosAt(input, s), Span(input, s, e))] + Tokenize(input, letter, e)
  }

  /** Everything still to be emitted from state `st`, token start `s` and position `p`. */
  function Rest(input: seq<char>, letter: int -> bool, st: LexState, s: nat, p: nat): seq<Token>
    requires s <= p <= |input|
  {
    match st
    case Top => Tokenize(input, letter, p)
    case Stop => []
    case _ => Finish(input, letter, s, Resume(input, letter, st, s, p))
  }

  /** What each state may assume about the token begun at `s` and the position `p`. */
  predicate StateInv(input: seq<char>, st: LexState, s: nat, p: nat) {
    ((st.Top? || st.StringStart?) && s == p) ||
    (st.Number? && s == p && (IsNumericSign(At(input, p)) || IsDigit(At(input, p)))) ||
    (st.DecimalDigits? && (s < p || IsDigit(At(input, p)))) ||
    st.StringContent? || st.Stop? ||
    (!(st.Top? || st.StringStart? || st.Number? || st.DecimalDigits?) && s < p)
  }

  /** States in the order the machine passes through them within one token. */
  function Rank(st: LexState): nat {
    match st
    case Top => 9
    case StringStart => 8
    case Number => 8
    case DecimalDigits => 7
    case DecimalFraction => 6
    case DecimalFractionDigits => 5
    case Exponent => 4
    case ExponentDigits => 3
    case HexDigits => 7
    case HexDigitsContinue => 6
    case HexFraction => 5
    case HexFractionDigits => 4
    case HexExponent => 3
    case HexExponentDigits => 2
    case OctalDigits => 2
    case BinaryDigits => 2
    case OctalDigitsContinue => 1
    case BinaryDigitsContinue => 1
    case IdentifierOrKeyword => 1
    case StringContent(_) => 1
    case Stop => 0
  }

  /** Lexicographic order on the termination measure. */
  predicate Below(a: (nat, nat, nat), b: (nat, nat, nat)) {
    a.0 < b.0 || (a.0 == b.0 && (a.1 < b.1 || (a.1 == b.1 && a.2 < b.2)))
  }

  /** The offsets of the first `n + 1` rune indices. */
  function Widths(input: seq<char>, n: nat): (w: seq<nat>)
    requires n <= |input|
    ensures |w| == n + 1
  {
    if n == 0 then [0] else Widths(input, n - 1) + [PrefixWidth(input, n)]
  }

  lemma {:induction false} WidthsAt(input: seq<char>, n: nat, i: nat)
    requires i <= n <= |input|
    ensures Widths(input, n)[i] == PrefixWidth(input, i)
  {
    if i < n {
      WidthsAt(input, n - 1, i);
    }
  }

  /** A byte offset reaches the input's size exactly at the end of the runes. */
  lemma OffsetAtEnd(input: seq<char>, i: nat)
    requires i <= |input|
    ensures PrefixWidth(input, i) >= PrefixWidth(input, |input|) <==> i == |input|
  {
    if i < |input| {
      PrefixWidthIncreasing(input, i, |input|);
    }
  }

  lemma SameOffsetSameIndex(input: seq<char>, i: nat, j: nat)
    requires i <= j <= |input|
    ensures PrefixWidth(input, i) == PrefixWidth(input, j) ==> i == j
  {
    if i < j {
      PrefixWidthIncreasing(input, i, j);
    }
  }

  // ---------------------------------------------------------------------------
  // One lemma per state function: how the remaining output of the state at
  // (s, p) is the remaining output of the state it moves to.

  /** The token of `input[s..p]` has been scanned in full; lexing resumes at `p`. */
  function Emitted(input: seq<char>, letter: int -> bool, kind: TokenType, s: nat, p: nat): seq<Token>
    requires s <= p <= |input|
  {
    [Token(kind, PosAt(input, s), Span(input, s, p))] + Tokenize(input, letter, p)
  }

  lemma TopEndStep(input: seq<char>, letter: int -> bool, p: nat)
    requires p <= |input|
    ensures p == |input| ==> Rest(input, letter, Top, p, p) == [Token(TokenEOF, PosAt(input, p), Span(input, p, p))]
    ensures p < |input| && IsSpace(input[p] as int) ==>
      Rest(input, letter, Top, p, p) == Rest(input, letter, Top, p + 1, p + 1)
  {
    assert Span(input, p, p) == "";
  }

  /** The single-rune punctuation tokens, by rune. */
  function PunctuationKind(ch: int): TokenType {
    if ch == '^' as int || ch == '!' as int then TokenFieldPrefix
    else if ch == '=' as int then TokenAssign
    else if ch == ',' as int then TokenFieldSeparator
    else if ch == ';' as int then TokenListSeparator
    else TokenPairSeparator
  }

  predicate IsPunctuation(ch: int) {
    ch in {'^' as int, '!' as int, '=' as int, ',' as int, ';' as int, ':' as int}
  }

  lemma TopPunctuationStep(input: seq<char>, letter: int -> bool, p: nat)
    requires p < |input| && IsPunctuation(input[p] as int)
    ensures Rest(input, letter, Top, p, p) == Emitted(input, letter, PunctuationKind(input[p] as int), p, p + 1)
  {
    assert Rest(input, letter, Top, p, p) == TokenizeAt(input, letter, p);
  }

  lemma TopLexemeStep(input: seq<char>, letter: int -> bool, p: nat)
    requires LetterClass(letter)
    requires p < |input| && !IsSpace(input[p] as int) && !IsPunctuation(input[p] as int)
    ensures IsStringStart(input[p] as int) ==>
      Rest(input, letter, Top, p, p) == Rest(input, letter, StringStart, p, p)
    ensures !IsStringStart(input[p] as int) && (IsNumericSign(input[p] as int) || IsDigit(input[p] as int)) ==>
      Rest(input, letter, Top, p, p) == Rest(input, letter, Number, p, p)
    ensures !IsStringStart(input[p] as int) && !IsNumericSign(input[p] as int) && !IsDigit(input[p] as int) ==>
      if letter(input[p] as int) then
        Rest(input, letter, Top, p, p) == Rest(input, letter, IdentifierOrKeyword, p, p + 1)
      else
        Rest(input, letter, Top, p, p) == [Token(TokenError, PosAt(input, p), UnexpectedCharacter(input[p]))]
  {
    assert Rest(input, letter, Top, p, p) == TokenizeAt(input, letter, p);
  }

  /** One more rune of a run, or the run's end. */
  lemma RunStep(input: seq<char>, p: nat, f: int -> bool)
    requires p <= |input| && !f(EOF)
    ensures f(At(input, p)) ==> p < |input| && Run(input, p, f) == Run(input, p + 1, f)
    ensures !f(At(input, p)) ==> Run(input, p, f) == p
  {
  }

  lemma IdentifierScan(input: seq<char>, letter: int -> bool, s: nat, p: nat)
    requires LetterClass(letter)
    requires s < p <= |input|
    ensures IsIdentifierContinue(letter, At(input, p)) ==>
      p < |input| && Resume(input, letter, IdentifierOrKeyword, s, p) == Resume(input, letter, IdentifierOrKeyword, s, p + 1)
    ensures !IsIdentifierContinue(letter, At(input, p)) ==>
      Resume(input, letter, IdentifierOrKeyword, s, p) == Lexeme(KeywordKind(Span(input, s, p)), p)
  {
  }

  lemma IdentifierStep(input: seq<char>, letter: int -> bool, s: nat, p: nat)
    requires LetterClass(letter)
    requires s < p <= |input|
    ensures IsIdentifierContinue(letter, At(input, p)) ==>
      p < |input| && Rest(input, letter, IdentifierOrKeyword, s, p) == Rest(input, letter, IdentifierOrKeyword, s, p + 1)
    ensures !IsIdentifierContinue(letter, At(input, p)) ==>
      Rest(input, letter, IdentifierOrKeyword, s, p) == Emitted(input, letter, KeywordKind(Span(input, s, p)), s, p)
  {
    IdentifierScan(input, letter, s, p);
  }

  lemma StringContentScan(input: seq<char>, letter: int -> bool, quote: int, s: nat, p: nat)
    requires s <= p <= |input|
    ensures p == |input| ==>
      Resume(input, letter, StringContent(quote), s, p) == Fail(UnterminatedString)
    ensures p < |input| && input[p] as int == quote ==>
      Resume(input, letter, StringContent(quote), s, p) == Lexeme(TokenString, p + 1)
    ensures p < |input| && input[p] as int != quote && input[p] == '\\' ==>
      Resume(input, letter, StringContent(quote), s, p) ==
        if p + 1 == |input| then Fail(UnterminatedEscape) else ScanString(input, p + 2, quote)
    ensures p < |input| && input[p] as int != quote && input[p] != '\\' ==>
      Resume(input, letter, StringContent(quote), s, p) == Resume(input, letter, StringContent(quote), s, p + 1)
  {
  }

  lemma StringContentStep(input: seq<char>, letter: int -> bool, quote: int, s: nat, p: nat)
    requires s <= p <= |input|
    ensures p == |input| ==>
      Rest(input, letter, StringContent(quote), s, p) == [Token(TokenError, PosAt(input, s), UnterminatedString)]
    ensures p < |input| && input[p] as int == quote ==>
      Rest(input, letter, StringContent(quote), s, p) == Emitted(input, letter, TokenString, s, p + 1)
    ensures p < |input| && input[p] as int != quote && input[p] == '\\' ==>
      Rest(input, letter, StringContent(quote), s, p) ==
        Finish(input, letter, s, if p + 1 == |input| then Fail(UnterminatedEscape) else ScanString(input, p + 2, quote))
    ensures p < |input| && input[p] as int != quote && input[p] != '\\' ==>
      Rest(input, letter, StringContent(quote), s, p) == Rest(input, letter, StringContent(quote), s, p + 1)
  {
    StringContentScan(input, letter, quote, s, p);
  }

  /** lexNumber past a leading `0` owes exactly what scanning past that zero produces. */
  lemma ZeroStep(input: seq<char>, letter: int -> bool, s: nat, z: nat)
    requires s < z <= |input|
    ensures var m := ZeroMove(input, s, z);
      z <= m.pos <= |input| && m.start <= m.pos && StateInv(input, m.next, m.start, m.pos) &&
      m.emitted + Rest(input, letter, m.next, m.start, m.pos) == Finish(input, letter, s, ScanZero(input, z))
  {
    var c := At(input, z);
    if c == 'x' as int || c == 'X' as int {
      ZeroHexStep(input, letter, s, z);
    } else if c == 'o' as int || c == 'O' as int {
      ZeroOctalStep(input, letter, s, z);
    } else if c == 'b' as int || c == 'B' as int {
      ZeroBinaryStep(input, letter, s, z);
    } else {
      ZeroPlainStep(input, letter, s, z);
    }
  }

  /** A base prefix after the zero: the digits of that base follow. */
  lemma ZeroHexStep(input: seq<char>, letter: int -> bool, s: nat, z: nat)
    requires s < z <= |input| && (At(input, z) == 'x' as int || At(input, z) == 'X' as int)
    ensures var m := ZeroMove(input, s, z);
      z <= m.pos <= |input| && m.start <= m.pos && StateInv(input, m.next, m.start, m.pos) &&
      m.emitted + Rest(input, letter, m.next, m.start, m.pos) == Finish(input, letter, s, ScanZero(input, z))
  {
    assert ZeroMove(input, s, z) == Goto(HexDigits, s, z + 1);
    assert ScanZero(input, z) == ScanHex(input, z + 1) == Resume(input, letter, HexDigits, s, z + 1);
  }

  lemma ZeroOctalStep(input: seq<char>, letter: int -> bool, s: nat, z: nat)
    requires s < z <= |input| && (At(input, z) == 'o' as int || At(input, z) == 'O' as int)
    ensures var m := ZeroMove(input, s, z);
      z <= m.pos <= |input| && m.start <= m.pos && StateInv(input, m.next, m.start, m.pos) &&
      m.emitted + Rest(input, letter, m.next, m.start, m.pos) == Finish(input, letter, s, ScanZero(input, z))
  {
    assert ZeroMove(input, s, z) == Goto(OctalDigits, s, z + 1);
    assert ScanZero(input, z) == Resume(input, letter, OctalDigits, s, z + 1);
  }

  lemma ZeroBinaryStep(input: seq<char>, letter: int -> bool, s: nat, z: nat)
    requires s < z <= |input| && (At(input, z) == 'b' as int || At(input, z) == 'B' as int)
    ensures var m := ZeroMove(input, s, z);
      z <= m.pos <= |input| && m.start <= m.pos && StateInv(input, m.next, m.start, m.pos) &&
      m.emitted + Rest(input, letter, m.next, m.start, m.pos) == Finish(input, letter, s, ScanZero(input, z))
  {
    assert ZeroMove(input, s, z) == Goto(BinaryDigits, s, z + 1);
    assert ScanZero(input, z) == Resume(input, letter, BinaryDigits, s, z + 1);
  }

  /** No base prefix after the zero: more decimal digits, a fraction, or the lone zero. */
  lemma ZeroPlainStep(input: seq<char>, letter: int -> bool, s: nat, z: nat)
    requires s < z <= |input|
    requires At(input, z) !in {'x' as int, 'X' as int, 'o' as int, 'O' as int, 'b' as int, 'B' as int}
    ensures var m := ZeroMove(input, s, z);
      z <= m.pos <= |input| && m.start <= m.pos && StateInv(input, m.next, m.start, m.pos) &&
      m.emitted + Rest(input, letter, m.next, m.start, m.pos) == Finish(input, letter, s, ScanZero(input, z))
  {
    var c := At(input, z);
    if IsDigit(c) || c == '_' as int {
      assert ZeroMove(input, s, z) == Goto(DecimalDigits, s, z);
      assert ScanZero(input, z) == ScanDecimal(input, z) == Resume(input, letter, DecimalDigits, s, z);
    } else if c == '.' as int {
      assert ZeroMove(input, s, z) == Goto(DecimalFraction, s, z);
      assert ScanZero(input, z) == ScanFraction(input, z + 1) == Resume(input, letter, DecimalFraction, s, z);
    } else {
      assert ZeroMove(input, s, z) == EmitAt(input, TokenNumber, s, z);
      assert ScanZero(input, z) == Lexeme(TokenNumber, z);
    }
  }

  lemma DecimalDigitsScan(input: seq<char>, letter: int -> bool, s: nat, p: nat)
    requires s <= p <= |input|
    ensures var ch := At(input, p);
      var r := Resume(input, letter, DecimalDigits, s, p);
      (DecimalOrSeparator(ch) ==> p < |input| && r == Resume(input, letter, DecimalDigits, s, p + 1)) &&
      (ch == '.' as int ==> r == Resume(input, letter, DecimalFraction, s, p)) &&
      (IsExponentMark(ch) ==> r == Resume(input, letter, Exponent, s, p)) &&
      (!DecimalOrSeparator(ch) && ch != '.' as int && !IsExponentMark(ch) ==> r == Lexeme(TokenNumber, p))
  {
    RunStep(input, p, DecimalOrSeparator);
  }

  lemma DecimalDigitsStep(input: seq<char>, letter: int -> bool, s: nat, p: nat)
    requires s <= p <= |input|
    ensures var ch := At(input, p);
      var r := Rest(input, letter, DecimalDigits, s, p);
      (DecimalOrSeparator(ch) ==> p < |input| && r == Rest(input, letter, DecimalDigits, s, p + 1)) &&
      (ch == '.' as int ==> r == Rest(input, letter, DecimalFraction, s, p)) &&
      (IsExponentMark(ch) ==> r == Rest(input, letter, Exponent, s, p)) &&
      (!DecimalOrSeparator(ch) && ch != '.' as int && !IsExponentMark(ch) ==> r == Emitted(input, letter, TokenNumber, s, p))
  {
    DecimalDigitsScan(input, letter, s, p);
  }

  lemma FractionDigitsScan(input: seq<char>, letter: int -> bool, s: nat, p: nat)
    requires s <= p <= |input|
    ensures var ch := At(input, p);
      var r := Resume(input, letter, DecimalFractionDigits, s, p);
      (DecimalOrSeparator(ch) ==> p < |input| && r == Resume(input, letter, DecimalFractionDigits, s, p + 1)) &&
      (IsExponentMark(ch) ==> r == Resume(input, letter, Exponent, s, p)) &&
      (!DecimalOrSeparator(ch) && !IsExponentMark(ch) ==> r == Lexeme(TokenNumber, p))
  {
    RunStep(input, p, DecimalOrSeparator);
  }

  lemma FractionDigitsStep(input: seq<char>, letter: int -> bool, s: nat, p: nat)
    requires s <= p <= |input|
    ensures var ch := At(input, p);
      var r := Rest(input, letter, DecimalFractionDigits, s, p);
      (DecimalOrSeparator(ch) ==> p < |input| && r == Rest(input, letter, DecimalFractionDigits, s, p + 1)) &&
      (IsExponentMark(ch) ==> r == Rest(input, letter, Exponent, s, p)) &&
      (!DecimalOrSeparator(ch) && !IsExponentMark(ch) ==> r == Emitted(input, letter, TokenNumber, s, p))
  {
    FractionDigitsScan(input, letter, s, p);
  }

  /** The state an exponent mark leads to, once its sign and first digit are seen. */
  function ExponentDigitsOf(st: LexState): LexState {
    if st == Exponent then ExponentDigits else HexExponentDigits
  }

  function ExponentMessage(st: LexState): string {
    if st == Exponent then DecimalExponentMessage else HexExponentMessage
  }

  lemma ExponentScan(input: seq<char>, letter: int -> bool, st: LexState, s: nat, p: nat)
    requires st == Exponent || st == HexExponent
    requires s <= p <= |input|
    ensures var q := Adv(input, p);
      var k := if IsNumericSign(At(input, q)) then q + 1 else q;
      var r := Resume(input, letter, st, s, p);
      k <= |input| &&
      (!IsDigit(At(input, k)) ==> r == Fail(ExponentMessage(st))) &&
      (IsDigit(At(input, k)) ==> r == Resume(input, letter, ExponentDigitsOf(st), s, k))
  {
  }

  lemma ExponentStep(input: seq<char>, letter: int -> bool, st: LexState, s: nat, p: nat)
    requires st == Exponent || st == HexExponent
    requires s <= p <= |input|
    ensures var q := Adv(input, p);
      var k := if IsNumericSign(At(input, q)) then q + 1 else q;
      var r := Rest(input, letter, st, s, p);
      k <= |input| &&
      (!IsDigit(At(input, k)) ==> r == [Token(TokenError, PosAt(input, s), ExponentMessage(st))]) &&
      (IsDigit(At(input, k)) ==> r == Rest(input, letter, ExponentDigitsOf(st), s, k))
  {
    ExponentScan(input, letter, st, s, p);
  }

  /** The states that only extend a run of digits, and the runes each takes. */
  predicate IsRunState(st: LexState) {
    st == ExponentDigits || st == HexExponentDigits || st == OctalDigitsContinue || st == BinaryDigitsContinue
  }

  predicate Continues(st: LexState, ch: int) {
    if st == OctalDigitsContinue then OctalOrSeparator(ch)
    else if st == BinaryDigitsContinue then BinaryOrSeparator(ch)
    else DecimalOrSeparator(ch)
  }

  lemma RunStateScan(input: seq<char>, letter: int -> bool, st: LexState, s: nat, p: nat)
    requires IsRunState(st)
    requires s <= p <= |input|
    ensures Continues(st, At(input, p)) ==>
      p < |input| && Resume(input, letter, st, s, p) == Resume(input, letter, st, s, p + 1)
    ensures !Continues(st, At(input, p)) ==>
      Resume(input, letter, st, s, p) == Lexeme(TokenNumber, p)
  {
    if st == OctalDigitsContinue {
      RunStep(input, p, OctalOrSeparator);
    } else if st == BinaryDigitsContinue {
      RunStep(input, p, BinaryOrSeparator);
    } else {
      RunStep(input, p, DecimalOrSeparator);
    }
  }

  lemma RunStateStep(input: seq<char>, letter: int -> bool, st: LexState, s: nat, p: nat)
    requires IsRunState(st)
    requires s <= p <= |input|
    ensures Continues(st, At(input, p)) ==>
      p < |input| && Rest(input, letter, st, s, p) == Rest(input, letter, st, s, p + 1)
    ensures !Continues(st, At(input, p)) ==>
      Rest(input, letter, st, s, p) == Emitted(input, letter, TokenNumber, s, p)
  {
    RunStateScan(input, letter, st, s, p);
  }

  lemma HexDigitsScan(input: seq<char>, letter: int -> bool, s: nat, p: nat)
    requires s <= p <= |input|
    ensures !IsHexDigit(At(input, p)) ==>
      Resume(input, letter, HexDigits, s, p) == Fail(HexDigitMessage)
    ensures IsHexDigit(At(input, p)) ==>
      Resume(input, letter, HexDigits, s, p) == Resume(input, letter, HexDigitsContinue, s, p)
  {
  }

  lemma HexDigitsStep(input: seq<char>, letter: int -> bool, s: nat, p: nat)
    requires s <= p <= |input|
    ensures !IsHexDigit(At(input, p)) ==>
      Rest(input, letter, HexDigits, s, p) == [Token(TokenError, PosAt(input, s), HexDigitMessage)]
    ensures IsHexDigit(At(input, p)) ==>
      Rest(input, letter, HexDigits, s, p) == Rest(input, letter, HexDigitsContinue, s, p)
  {
    HexDigitsScan(input, letter, s, p);
  }

  lemma HexMantissaScan(input: seq<char>, letter: int -> bool, s: nat, p: nat)
    requires s <= p <= |input|
    ensures var ch := At(input, p);
      var r := Resume(input, letter, HexDigitsContinue, s, p);
      (HexOrSeparator(ch) ==> p < |input| && r == Resume(input, letter, HexDigitsContinue, s, p + 1)) &&
      (ch == '.' as int ==> r == Resume(input, letter, HexFraction, s, p)) &&
      (IsHexExponentMark(ch) ==> r == Resume(input, letter, HexExponent, s, p)) &&
      (!HexOrSeparator(ch) && ch != '.' as int && !IsHexExponentMark(ch) ==> r == Lexeme(TokenNumber, p))
  {
    RunStep(input, p, HexOrSeparator);
  }

  lemma HexMantissaStep(input: seq<char>, letter: int -> bool, s: nat, p: nat)
    requires s <= p <= |input|
    ensures var ch := At(input, p);
      var r := Rest(input, letter, HexDigitsContinue, s, p);
      (HexOrSeparator(ch) ==> p < |input| && r == Rest(input, letter, HexDigitsContinue, s, p + 1)) &&
      (ch == '.' as int ==> r == Rest(input, letter, HexFraction, s, p)) &&
      (IsHexExponentMark(ch) ==> r == Rest(input, letter, HexExponent, s, p)) &&
      (!HexOrSeparator(ch) && ch != '.' as int && !IsHexExponentMark(ch) ==> r == Emitted(input, letter, TokenNumber, s, p))
  {
    HexMantissaScan(input, letter, s, p);
  }

  lemma HexFractionDigitsScan(input: seq<char>, letter: int -> bool, s: nat, p: nat)
    requires s <= p <= |input|
    ensures var ch := At(input, p);
      var r := Resume(input, letter, HexFractionDigits, s, p);
      (HexOrSeparator(ch) ==> p < |input| && r == Resume(input, letter, HexFractionDigits, s, p + 1)) &&
      (IsHexExponentMark(ch) ==> r == Resume(input, letter, HexExponent, s, p)) &&
      (!HexOrSeparator(ch) && !IsHexExponentMark(ch) ==> r == Lexeme(TokenNumber, p))
  {
    RunStep(input, p, HexOrSeparator);
  }

  lemma HexFractionDigitsStep(input: seq<char>, letter: int -> bool, s: nat, p: nat)
    requires s <= p <= |input|
    ensures var ch := At(input, p);
      var r := Rest(input, letter, HexFractionDigits, s, p);
      (HexOrSeparator(ch) ==> p < |input| && r == Rest(input, letter, HexFractionDigits, s, p + 1)) &&
      (IsHexExponentMark(ch) ==> r == Rest(input, letter, HexExponent, s, p)) &&
      (!HexOrSeparator(ch) && !IsHexExponentMark(ch) ==> r == Emitted(input, letter, TokenNumber, s, p))
  {
    HexFractionDigitsScan(input, letter, s, p);
  }

  lemma BasedDigitsScan(input: seq<char>, letter: int -> bool, st: LexState, s: nat, p: nat)
    requires st == OctalDigits || st == BinaryDigits
    requires s <= p <= |input|
    ensures var digit := if st == OctalDigits then IsOctalDigit(At(input, p)) else IsBinaryDigit(At(input, p));
      var message := if st == OctalDigits then OctalDigitMessage else BinaryDigitMessage;
      var next := if st == OctalDigits then OctalDigitsContinue else BinaryDigitsContinue;
      (!digit ==> Resume(input, letter, st, s, p) == Fail(message)) &&
      (digit ==> Resume(input, letter, st, s, p) == Resume(input, letter, next, s, p))
  {
  }

  lemma BasedDigitsStep(input: seq<char>, letter: int -> bool, st: LexState, s: nat, p: nat)
    requires st == OctalDigits || st == BinaryDigits
    requires s <= p <= |input|
    ensures var digit := if st == OctalDigits then IsOctalDigit(At(input, p)) else IsBinaryDigit(At(input, p));
      var message := if st == OctalDigits then OctalDigitMessage else BinaryDigitMessage;
      var next := if st == OctalDigits then OctalDigitsContinue else BinaryDigitsContinue;
      (!digit ==> Rest(input, letter, st, s, p) == [Token(TokenError, PosAt(input, s), message)]) &&
      (digit ==> Rest(input, letter, st, s, p) == Rest(input, letter, next, s, p))
  {
    BasedDigitsScan(input, letter, st, s, p);
  }

  // ---------------------------------------------------------------------------
  // One step of the machine on indices: what each state function does.

  /** The state the machine moves to, the new token start and position, and the tokens it emitted. */
  datatype Move = Move(next: LexState, start: nat, pos: nat, emitted: seq<Token>)

  /** Move on to `st` without emitting anything. */
  function Goto(st: LexState, s: nat, p: nat): Move {
    Move(st, s, p, [])
  }

  /** `emit(kind)` at position `p`, then back to the top state. */
  function EmitAt(input: seq<char>, kind: TokenType, s: nat, p: nat): Move
    requires s <= p <= |input|
  {
    Move(Top, p, p, [Token(kind, PosAt(input, s), Span(input, s, p))])
  }

  /** `errorf(message)` at position `p`: an error token at the token start, and the machine stops. */
  function ErrorAt(input: seq<char>, message: string, s: nat, p: nat): Move
    requires s <= |input|
  {
    Move(Stop, s, p, [Token(TokenError, PosAt(input, s), message)])
  }

  /** lexStringEscape, with the backslash consumed and `p` just after it. */
  function EscapeMove(input: seq<char>, quote: int, s: nat, p: nat): Move
    requires s <= |input| && p <= |input|
  {
    if At(input, p) == EOF then ErrorAt(input, UnterminatedEscape, s, p)
    else Goto(StringContent(quote), s, p + 1)
  }

  /** After an exponent mark at `p`: the optional sign, then a required digit. */
  function SignedExponentMove(input: seq<char>, st: LexState, s: nat, p: nat): Move
    requires s <= p <= |input|
  {
    var q := Adv(input, p);
    var k := if IsNumericSign(At(input, q)) then Adv(input, q) else q;
    if !IsDigit(At(input, k)) then ErrorAt(input, ExponentMessage(st), s, k)
    else Goto(ExponentDigitsOf(st), s, k)
  }

  function TopMove(input: seq<char>, letter: int -> bool, s: nat, p: nat): Move
    requires s <= p <= |input|
  {
    var ch := At(input, p);
    var q := Adv(input, p);
    if ch == EOF then Move(Stop, p, p, [Token(TokenEOF, PosAt(input, p), "")])
    else if IsSpace(ch) then Goto(Top, q, q)
    else if IsPunctuation(ch) then EmitAt(input, PunctuationKind(ch), s, q)
    else if IsStringStart(ch) then Goto(StringStart, s, p)
    else if IsNumericSign(ch) || IsDigit(ch) then Goto(Number, s, p)
    else if letter(ch) then Goto(IdentifierOrKeyword, s, q)
    else ErrorAt(input, UnexpectedCharacter(input[p]), s, p)
  }

  function IdentifierOrKeywordMove(input: seq<char>, letter: int -> bool, s: nat, p: nat): Move
    requires s <= p <= |input|
  {
    var ch := At(input, p);
    var q := Adv(input, p);
    if IsIdentifierContinue(letter, ch) then Goto(IdentifierOrKeyword, s, q)
    else EmitAt(input, KeywordKind(Span(input, s, p)), s, p)
  }

  function StringStartMove(input: seq<char>, s: nat, p: nat): Move
    requires s <= p <= |input|
  {
    var ch := At(input, p);
    var q := Adv(input, p);
    Goto(StringContent(ch), s, q)
  }

  function StringContentMove(input: seq<char>, quote: int, s: nat, p: nat): Move
    requires s <= p <= |input|
  {
    var ch := At(input, p);
    var q := Adv(input, p);
    if ch == EOF then ErrorAt(input, UnterminatedString, s, q)
    else if ch == quote then EmitAt(input, TokenString, s, q)
    else if ch == '\\' as int then EscapeMove(input, quote, s, q)
    else Goto(StringContent(quote), s, q)
  }

  /** lexNumber past a leading `0`, with `k` just after it: a base prefix, more digits, a fraction, or the lone zero. */
  function ZeroMove(input: seq<char>, s: nat, k: nat): Move
    requires s <= k <= |input|
  {
    var c := At(input, k);
    if c == 'x' as int || c == 'X' as int then Goto(HexDigits, s, Adv(input, k))
    else if c == 'o' as int || c == 'O' as int then Goto(OctalDigits, s, Adv(input, k))
    else if c == 'b' as int || c == 'B' as int then Goto(BinaryDigits, s, Adv(input, k))
    else if IsDigit(c) || c == '_' as int then Goto(DecimalDigits, s, k)
    else if c == '.' as int then Goto(DecimalFraction, s, k)
    else EmitAt(input, TokenNumber, s, k)
  }

  function NumberMove(input: seq<char>, s: nat, p: nat): Move
    requires s <= p <= |input|
  {
    var k := if IsNumericSign(At(input, p)) then Adv(input, p) else p;
    if At(input, k) == '0' as int then ZeroMove(input, s, Adv(input, k))
    else Goto(DecimalDigits, s, k)
  }

  function DecimalDigitsMove(input: seq<char>, s: nat, p: nat): Move
    requires s <= p <= |input|
  {
    var ch := At(input, p);
    var q := Adv(input, p);
    if DecimalOrSeparator(ch) then Goto(DecimalDigits, s, q)
    else if ch == '.' as int then Goto(DecimalFraction, s, p)
    else if IsExponentMark(ch) then Goto(Exponent, s, p)
    else EmitAt(input, TokenNumber, s, p)
  }

  function DecimalFractionMove(input: seq<char>, s: nat, p: nat): Move
    requires s <= p <= |input|
  {
    var q := Adv(input, p);
    Goto(DecimalFractionDigits, s, q)
  }

  function DecimalFractionDigitsMove(input: seq<char>, s: nat, p: nat): Move
    requires s <= p <= |input|
  {
    var ch := At(input, p);
    var q := Adv(input, p);
    if DecimalOrSeparator(ch) then Goto(DecimalFractionDigits, s, q)
    else if IsExponentMark(ch) then Goto(Exponent, s, p)
    else EmitAt(input, TokenNumber, s, p)
  }

  function ExponentMove(input: seq<char>, s: nat, p: nat): Move
    requires s <= p <= |input|
  {
    SignedExponentMove(input, Exponent, s, p)
  }

  function ExponentDigitsMove(input: seq<char>, s: nat, p: nat): Move
    requires s <= p <= |input|
  {
    var ch := At(input, p);
    var q := Adv(input, p);
    if DecimalOrSeparator(ch) then Goto(ExponentDigits, s, q)
    else EmitAt(input, TokenNumber, s, p)
  }

  function HexDigitsMove(input: seq<char>, s: nat, p: nat): Move
    requires s <= p <= |input|
  {
    var ch := At(input, p);
    if !IsHexDigit(ch) then ErrorAt(input, HexDigitMessage, s, p)
    else Goto(HexDigitsContinue, s, p)
  }

  function HexDigitsContinueMove(input: seq<char>, s: nat, p: nat): Move
    requires s <= p <= |input|
  {
    var ch := At(input, p);
    var q := Adv(input, p);
    if HexOrSeparator(ch) then Goto(HexDigitsContinue, s, q)
    else if ch == '.' as int then Goto(HexFraction, s, p)
    else if IsHexExponentMark(ch) then Goto(HexExponent, s, p)
    else EmitAt(input, TokenNumber, s, p)
  }

  function HexFractionMove(input: seq<char>, s: nat, p: nat): Move
    requires s <= p <= |input|
  {
    var q := Adv(input, p);
    Goto(HexFractionDigits, s, q)
  }

  function HexFractionDigitsMove(input: seq<char>, s: nat, p: nat): Move
    requires s <= p <= |input|
  {
    var ch := At(input, p);
    var q := Adv(input, p);
    if HexOrSeparator(ch) then Goto(HexFractionDigits, s, q)
    else if IsHexExponentMark(ch) then Goto(HexExponent, s, p)
    else EmitAt(input, TokenNumber, s, p)
  }

  function HexExponentMove(input: seq<char>, s: nat, p: nat): Move
    requires s <= p <= |input|
  {
    SignedExponentMove(input, HexExponent, s, p)
  }

  function HexExponentDigitsMove(input: seq<char>, s: nat, p: nat): Move
    requires s <= p <= |input|
  {
    var ch := At(input, p);
    var q := Adv(input, p);
    if DecimalOrSeparator(ch) then Goto(HexExponentDigits, s, q)
    else EmitAt(input, TokenNumber, s, p)
  }

  function OctalDigitsMove(input: seq<char>, s: nat, p: nat): Move
    requires s <= p <= |input|
  {
    var ch := At(input, p);
    if !IsOctalDigit(ch) then ErrorAt(input, OctalDigitMessage, s, p)
    else Goto(OctalDigitsContinue, s, p)
  }

  function OctalDigitsContinueMove(input: seq<char>, s: nat, p: nat): Move
    requires s <= p <= |input|
  {
    var ch := At(input, p);
    var q := Adv(input, p);
    if OctalOrSeparator(ch) then Goto(OctalDigitsContinue, s, q)
    else EmitAt(input, TokenNumber, s, p)
  }

  function BinaryDigitsMove(input: seq<char>, s: nat, p: nat): Move
    requires s <= p <= |input|
  {
    var ch := At(input, p);
    if !IsBinaryDigit(ch) then ErrorAt(input, BinaryDigitMessage, s, p)
    else Goto(BinaryDigitsContinue, s, p)
  }

  function BinaryDigitsContinueMove(input: seq<char>, s: nat, p: nat): Move
    requires s <= p <= |input|
  {
    var ch := At(input, p);
    var q := Adv(input, p);
    if BinaryOrSeparator(ch) then Goto(BinaryDigitsContinue, s, q)
    else EmitAt(input, TokenNumber, s, p)
  }

  /** The state function of `st`, run with token start `s` and position `p`. */
  function Transition(input: seq<char>, letter: int -> bool, st: LexState, s: nat, p: nat): (m: Move)
    requires s <= p <= |input| && st != Stop
  {
    match st
    case Top => TopMove(input, letter, s, p)
    case IdentifierOrKeyword => IdentifierOrKeywordMove(input, letter, s, p)
    case StringStart => StringStartMove(input, s, p)
    case StringContent(quote) => StringContentMove(input, quote, s, p)
    case Number => NumberMove(input, s, p)
    case DecimalDigits => DecimalDigitsMove(input, s, p)
    case DecimalFraction => DecimalFractionMove(input, s, p)
    case DecimalFractionDigits => DecimalFractionDigitsMove(input, s, p)
    case Exponent => ExponentMove(input, s, p)
    case ExponentDigits => ExponentDigitsMove(input, s, p)
    case HexDigits => HexDigitsMove(input, s, p)
    case HexDigitsContinue => HexDigitsContinueMove(input, s, p)
    case HexFraction => HexFractionMove(input, s, p)
    case HexFractionDigits => HexFractionDigitsMove(input, s, p)
    case HexExponent => HexExponentMove(input, s, p)
    case HexExponentDigits => HexExponentDigitsMove(input, s, p)
    case OctalDigits => OctalDigitsMove(input, s, p)
    case OctalDigitsContinue => OctalDigitsContinueMove(input, s, p)
    case BinaryDigits => BinaryDigitsMove(input, s, p)
    case BinaryDigitsContinue => BinaryDigitsContinueMove(input, s, p)
  }


  function Measure(input: seq<char>, st: LexState, s: nat, p: nat): (nat, nat, nat)
    requires p <= |input|
  {
    (|input| - p, if s < p then 1 else 0, Rank(st))
  }

  /** A move is sound when what it emits, followed by what its target state still owes, is what the source state owed. */
  predicate Sound(input: seq<char>, letter: int -> bool, st: LexState, s: nat, p: nat, m: Move)
    requires s <= p <= |input|
  {
    m.start <= m.pos <= |input| && StateInv(input, m.next, m.start, m.pos) &&
    m.emitted + Rest(input, letter, m.next, m.start, m.pos) == Rest(input, letter, st, s, p) &&
    Below(Measure(input, m.next, m.start, m.pos), Measure(input, st, s, p))
  }

  lemma TopSound(input: seq<char>, letter: int -> bool, s: nat, p: nat)
    requires LetterClass(letter)
    requires s <= p <= |input| && StateInv(input, Top, s, p)
    ensures Sound(input, letter, Top, s, p, TopMove(input, letter, s, p))
  {
    TopEndStep(input, letter, p);
    if p < |input| && IsPunctuation(input[p] as int) {
      TopPunctuationStep(input, letter, p);
    }
    if p < |input| && !IsSpace(input[p] as int) && !IsPunctuation(input[p] as int) {
      TopLexemeStep(input, letter, p);
    }
  }

  lemma IdentifierOrKeywordSound(input: seq<char>, letter: int -> bool, s: nat, p: nat)
    requires LetterClass(letter)
    requires s <= p <= |input| && StateInv(input, IdentifierOrKeyword, s, p)
    ensures Sound(input, letter, IdentifierOrKeyword, s, p, IdentifierOrKeywordMove(input, letter, s, p))
  {
    IdentifierStep(input, letter, s, p);
  }

  lemma StringStartSound(input: seq<char>, letter: int -> bool, s: nat, p: nat)
    requires LetterClass(letter)
    requires s <= p <= |input| && StateInv(input, StringStart, s, p)
    ensures Sound(input, letter, StringStart, s, p, StringStartMove(input, s, p))
  {
  }

  lemma StringContentSound(input: seq<char>, letter: int -> bool, quote: int, s: nat, p: nat)
    requires LetterClass(letter)
    requires s <= p <= |input| && StateInv(input, StringContent(quote), s, p)
    ensures Sound(input, letter, StringContent(quote), s, p, StringContentMove(input, quote, s, p))
  {
    StringContentStep(input, letter, quote, s, p);
  }

  lemma NumberSound(input: seq<char>, letter: int -> bool, s: nat, p: nat)
    requires LetterClass(letter)
    requires s <= p <= |input| && StateInv(input, Number, s, p)
    ensures Sound(input, letter, Number, s, p, NumberMove(input, s, p))
  {
    var k := if IsNumericSign(At(input, p)) then p + 1 else p;
    if At(input, k) == '0' as int {
      assert NumberMove(input, s, p) == ZeroMove(input, s, k + 1);
      NumberZeroSound(input, letter, s, p, k);
    } else {
      assert NumberMove(input, s, p) == Goto(DecimalDigits, s, k);
      NumberDecimalSound(input, letter, s, p, k);
    }
  }

  lemma NumberZeroSound(input: seq<char>, letter: int -> bool, s: nat, p: nat, k: nat)
    requires LetterClass(letter)
    requires s <= p <= |input| && StateInv(input, Number, s, p)
    requires k == (if IsNumericSign(At(input, p)) then p + 1 else p) && At(input, k) == '0' as int
    ensures Sound(input, letter, Number, s, p, ZeroMove(input, s, k + 1))
  {
    NumberZeroBound(input, s, p, k);
    ZeroStep(input, letter, s, k + 1);
    NumberZeroTail(input, letter, s, p, k, ZeroMove(input, s, k + 1));
  }

  lemma NumberZeroBound(input: seq<char>, s: nat, p: nat, k: nat)
    requires s <= p <= |input| && StateInv(input, Number, s, p)
    requires k == (if IsNumericSign(At(input, p)) then p + 1 else p) && At(input, k) == '0' as int
    ensures k < |input|
  {
  }

  /** Any move that lands after the zero and finishes its scan is sound for the number state. */
  lemma NumberZeroTail(input: seq<char>, letter: int -> bool, s: nat, p: nat, k: nat, m: Move)
    requires s <= p <= |input| && StateInv(input, Number, s, p)
    requires k == (if IsNumericSign(At(input, p)) then p + 1 else p) && At(input, k) == '0' as int
    requires k + 1 <= m.pos <= |input| && m.start <= m.pos && StateInv(input, m.next, m.start, m.pos)
    requires m.emitted + Rest(input, letter, m.next, m.start, m.pos) == Finish(input, letter, s, ScanZero(input, k + 1))
    ensures Sound(input, letter, Number, s, p, m)
  {
    NumberZeroRest(input, letter, s, p, k);
    AdvancedSound(input, letter, Number, s, p, m, ScanZero(input, k + 1));
  }

  /** A move that consumed input is sound once its output and target finish the scan `r` the source state resumes. */
  lemma AdvancedSound(input: seq<char>, letter: int -> bool, st: LexState, s: nat, p: nat, m: Move, r: Scan)
    requires s <= p < m.pos <= |input| && m.start <= m.pos && StateInv(input, m.next, m.start, m.pos)
    requires st != Top && st != Stop && Resume(input, letter, st, s, p) == r
    requires m.emitted + Rest(input, letter, m.next, m.start, m.pos) == Finish(input, letter, s, r)
    ensures Sound(input, letter, st, s, p, m)
  {
  }

  lemma NumberZeroRest(input: seq<char>, letter: int -> bool, s: nat, p: nat, k: nat)
    requires s <= p <= |input| && StateInv(input, Number, s, p)
    requires k == (if IsNumericSign(At(input, p)) then p + 1 else p) && At(input, k) == '0' as int
    ensures k < |input| && Resume(input, letter, Number, s, p) == ScanZero(input, k + 1)
  {
  }

  lemma NumberDecimalSound(input: seq<char>, letter: int -> bool, s: nat, p: nat, k: nat)
    requires LetterClass(letter)
    requires s <= p <= |input| && StateInv(input, Number, s, p)
    requires k == (if IsNumericSign(At(input, p)) then p + 1 else p) && At(input, k) != '0' as int
    ensures Sound(input, letter, Number, s, p, Goto(DecimalDigits, s, k))
  {
    assert Rest(input, letter, Number, s, p) == Rest(input, letter, DecimalDigits, s, k);
  }

  lemma DecimalDigitsSound(input: seq<char>, letter: int -> bool, s: nat, p: nat)
    requires LetterClass(letter)
    requires s <= p <= |input| && StateInv(input, DecimalDigits, s, p)
    ensures Sound(input, letter, DecimalDigits, s, p, DecimalDigitsMove(input, s, p))
  {
    DecimalDigitsStep(input, letter, s, p);
  }

  lemma DecimalFractionSound(input: seq<char>, letter: int -> bool, s: nat, p: nat)
    requires LetterClass(letter)
    requires s <= p <= |input| && StateInv(input, DecimalFraction, s, p)
    ensures Sound(input, letter, DecimalFraction, s, p, DecimalFractionMove(input, s, p))
  {
  }

  lemma DecimalFractionDigitsSound(input: seq<char>, letter: int -> bool, s: nat, p: nat)
    requires LetterClass(letter)
    requires s <= p <= |input| && StateInv(input, DecimalFractionDigits, s, p)
    ensures Sound(input, letter, DecimalFractionDigits, s, p, DecimalFractionDigitsMove(input, s, p))
  {
    FractionDigitsStep(input, letter, s, p);
  }

  lemma ExponentSound(input: seq<char>, letter: int -> bool, s: nat, p: nat)
    requires LetterClass(letter)
    requires s <= p <= |input| && StateInv(input, Exponent, s, p)
    ensures Sound(input, letter, Exponent, s, p, ExponentMove(input, s, p))
  {
    ExponentStep(input, letter, Exponent, s, p);
  }

  lemma ExponentDigitsSound(input: seq<char>, letter: int -> bool, s: nat, p: nat)
    requires LetterClass(letter)
    requires s <= p <= |input| && StateInv(input, ExponentDigits, s, p)
    ensures Sound(input, letter, ExponentDigits, s, p, ExponentDigitsMove(input, s, p))
  {
    RunStateStep(input, letter, ExponentDigits, s, p);
  }

  lemma HexDigitsSound(input: seq<char>, letter: int -> bool, s: nat, p: nat)
    requires LetterClass(letter)
    requires s <= p <= |input| && StateInv(input, HexDigits, s, p)
    ensures Sound(input, letter, HexDigits, s, p, HexDigitsMove(input, s, p))
  {
    HexDigitsStep(input, letter, s, p);
  }

  lemma HexDigitsContinueSound(input: seq<char>, letter: int -> bool, s: nat, p: nat)
    requires LetterClass(letter)
    requires s <= p <= |input| && StateInv(input, HexDigitsContinue, s, p)
    ensures Sound(input, letter, HexDigitsContinue, s, p, HexDigitsContinueMove(input, s, p))
  {
    HexMantissaStep(input, letter, s, p);
  }

  lemma HexFractionSound(input: seq<char>, letter: int -> bool, s: nat, p: nat)
    requires LetterClass(letter)
    requires s <= p <= |input| && StateInv(input, HexFraction, s, p)
    ensures Sound(input, letter, HexFraction, s, p, HexFractionMove(input, s, p))
  {
  }

  lemma HexFractionDigitsSound(input: seq<char>, letter: int -> bool, s: nat, p: nat)
    requires LetterClass(letter)
    requires s <= p <= |input| && StateInv(input, HexFractionDigits, s, p)
    ensures Sound(input, letter, HexFractionDigits, s, p, HexFractionDigitsMove(input, s, p))
  {
    HexFractionDigitsStep(input, letter, s, p);
  }

  lemma HexExponentSound(input: seq<char>, letter: int -> bool, s: nat, p: nat)
    requires LetterClass(letter)
    requires s <= p <= |input| && StateInv(input, HexExponent, s, p)
    ensures Sound(input, letter, HexExponent, s, p, HexExponentMove(input, s, p))
  {
    ExponentStep(input, letter, HexExponent, s, p);
  }

  lemma HexExponentDigitsSound(input: seq<char>, letter: int -> bool, s: nat, p: nat)
    requires LetterClass(letter)
    requires s <= p <= |input| && StateInv(input, HexExponentDigits, s, p)
    ensures Sound(input, letter, HexExponentDigits, s, p, HexExponentDigitsMove(input, s, p))
  {
    RunStateStep(input, letter, HexExponentDigits, s, p);
  }

  lemma OctalDigitsSound(input: seq<char>, letter: int -> bool, s: nat, p: nat)
    requires LetterClass(letter)
    requires s <= p <= |input| && StateInv(input, OctalDigits, s, p)
    ensures Sound(input, letter, OctalDigits, s, p, OctalDigitsMove(input, s, p))
  {
    BasedDigitsStep(input, letter, OctalDigits, s, p);
  }

  lemma OctalDigitsContinueSound(input: seq<char>, letter: int -> bool, s: nat, p: nat)
    requires LetterClass(letter)
    requires s <= p <= |input| && StateInv(input, OctalDigitsContinue, s, p)
    ensures Sound(input, letter, OctalDigitsContinue, s, p, OctalDigitsContinueMove(input, s, p))
  {
    RunStateStep(input, letter, OctalDigitsContinue, s, p);
  }

  lemma BinaryDigitsSound(input: seq<char>, letter: int -> bool, s: nat, p: nat)
    requires LetterClass(letter)
    requires s <= p <= |input| && StateInv(input, BinaryDigits, s, p)
    ensures Sound(input, letter, BinaryDigits, s, p, BinaryDigitsMove(input, s, p))
  {
    BasedDigitsStep(input, letter, BinaryDigits, s, p);
  }

  lemma BinaryDigitsContinueSound(input: seq<char>, letter: int -> bool, s: nat, p: nat)
    requires LetterClass(letter)
    requires s <= p <= |input| && StateInv(input, BinaryDigitsContinue, s, p)
    ensures Sound(input, letter, BinaryDigitsContinue, s, p, BinaryDigitsContinueMove(input, s, p))
  {
    RunStateStep(input, letter, BinaryDigitsContinue, s, p);
  }

  /**
   * Every step keeps the output owed and moves the machine strictly forward:
   * the emitted tokens and the target state's remaining output together are
   * the source state's remaining output.
   */
  lemma TransitionSound(input: seq<char>, letter: int -> bool, st: LexState, s: nat, p: nat)
    requires LetterClass(letter)
    requires s <= p <= |input| && st != Stop && StateInv(input, st, s, p)
    ensures Sound(input, letter, st, s, p, Transition(input, letter, st, s, p))
  {
    match st
    case Top => TopSound(input, letter, s, p);
    case IdentifierOrKeyword => IdentifierOrKeywordSound(input, letter, s, p);
    case StringStart => StringStartSound(input, letter, s, p);
    case StringContent(quote) => StringContentSound(input, letter, quote, s, p);
    case Number => NumberSound(input, letter, s, p);
    case DecimalDigits => DecimalDigitsSound(input, letter, s, p);
    case DecimalFraction => DecimalFractionSound(input, letter, s, p);
    case DecimalFractionDigits => DecimalFractionDigitsSound(input, letter, s, p);
    case Exponent => ExponentSound(input, letter, s, p);
    case ExponentDigits => ExponentDigitsSound(input, letter, s, p);
    case HexDigits => HexDigitsSound(input, letter, s, p);
    case HexDigitsContinue => HexDigitsContinueSound(input, letter, s, p);
    case HexFraction => HexFractionSound(input, letter, s, p);
    case HexFractionDigits => HexFractionDigitsSound(input, letter, s, p);
    case HexExponent => HexExponentSound(input, letter, s, p);
    case HexExponentDigits => HexExponentDigitsSound(input, letter, s, p);
    case OctalDigits => OctalDigitsSound(input, letter, s, p);
    case OctalDigitsContinue => OctalDigitsContinueSound(input, letter, s, p);
    case BinaryDigits => BinaryDigitsSound(input, letter, s, p);
    case BinaryDigitsContinue => BinaryDigitsContinueSound(input, letter, s, p);
  }


  /** A move lands in a state whose invariant holds, lower in the measure. */
  lemma TransitionDecreases(input: seq<char>, letter: int -> bool, st: LexState, s: nat, p: nat)
    requires LetterClass(letter)
    requires s <= p <= |input| && st != Stop && StateInv(input, st, s, p)
    ensures var m := Transition(input, letter, st, s, p);
      m.start <= m.pos <= |input| && StateInv(input, m.next, m.start, m.pos) &&
      Below(Measure(input, m.next, m.start, m.pos), Measure(input, st, s, p))
  {
    TransitionSound(input, letter, st, s, p);
  }

  /** The machine run from state `st` until it stops: every token it emits from here on. */
  function Drive(input: seq<char>, letter: int -> bool, st: LexState, s: nat, p: nat): seq<Token>
    requires LetterClass(letter) && s <= p <= |input| && StateInv(input, st, s, p)
    decreases Measure(input, st, s, p).0, Measure(input, st, s, p).1, Measure(input, st, s, p).2, 1
  {
    if st == Stop then [] else Continue(input, letter, st, s, p)
  }

  /** What the move out of the running state `st` emits, then the run from where it lands. */
  function Continue(input: seq<char>, letter: int -> bool, st: LexState, s: nat, p: nat): seq<Token>
    requires LetterClass(letter) && s <= p <= |input| && st != Stop && StateInv(input, st, s, p)
    decreases Measure(input, st, s, p).0, Measure(input, st, s, p).1, Measure(input, st, s, p).2, 0
  {
    TransitionDecreases(input, letter, st, s, p);
    var m := Transition(input, letter, st, s, p);
    m.emitted + Drive(input, letter, m.next, m.start, m.pos)
  }

  /** What is still owed from state `st`. */
  function Owed(input: seq<char>, letter: int -> bool, st: LexState, s: nat, p: nat): seq<Token>
    requires LetterClass(letter) && s <= p <= |input| && StateInv(input, st, s, p)
  {
    Drive(input, letter, st, s, p)
  }

  /** Running the machine yields exactly what the state still owes. */
  lemma {:induction false} DriveIsRest(input: seq<char>, letter: int -> bool, st: LexState, s: nat, p: nat)
    requires LetterClass(letter) && s <= p <= |input| && StateInv(input, st, s, p)
    ensures Drive(input, letter, st, s, p) == Rest(input, letter, st, s, p)
    decreases Measure(input, st, s, p).0, Measure(input, st, s, p).1, Measure(input, st, s, p).2
  {
    if st != Stop {
      TransitionSound(input, letter, st, s, p);
      var m := Transition(input, letter, st, s, p);
      DriveIsRest(input, letter, m.next, m.start, m.pos);
    }
  }

  /** From the top state the machine yields the token list of the spec. */
  lemma DriveFromTop(input: seq<char>, letter: int -> bool, p: nat)
    requires LetterClass(letter) && p <= |input|
    ensures Owed(input, letter, Top, p, p) == Tokenize(input, letter, p)
  {
    DriveIsRest(input, letter, Top, p, p);
  }

  /** The loop invariant of runPattern: the state may run from (s, p), and what it owes completes the output. */
  ghost predicate Owes(input: seq<char>, letter: int -> bool, st: LexState, s: nat, p: nat, tokens: seq<Token>, total: seq<Token>)
  {
    LetterClass(letter) && s <= p <= |input| && StateInv(input, st, s, p) &&
    tokens + Owed(input, letter, st, s, p) == total
  }

  /** One step of the driver, by a sound move `m` from (st, s, p) with `before` emitted to (next, s', p') with `after` emitted, keeps the run's output equal to `total`. */
  lemma StepKeeps(input: seq<char>, letter: int -> bool, st: LexState, s: nat, p: nat, before: seq<Token>, m: Move,
                  next: LexState, s': nat, p': nat, after: seq<Token>, total: seq<Token>)
    requires st != Stop && Owes(input, letter, st, s, p, before, total)
    requires Sound(input, letter, st, s, p, m)
    requires next == m.next && s' == m.start && p' == m.pos && after == before + m.emitted
    ensures Owes(input, letter, next, s', p', after, total)
    ensures Below(Measure(input, next, s', p'), Measure(input, st, s, p))
  {
    DriveIsRest(input, letter, st, s, p);
    DriveIsRest(input, letter, next, s', p');
    Regroup(before, m.emitted, Drive(input, letter, next, s', p'), Drive(input, letter, st, s, p), total);
  }

  lemma Regroup<T>(before: seq<T>, emitted: seq<T>, after: seq<T>, owed: seq<T>, total: seq<T>)
    requires emitted + after == owed && before + owed == total
    ensures (before + emitted) + after == total
  {
    assert (before + emitted) + after == before + (emitted + after);
  }

  class Lexer {
    /** The runes being scanned. */
    const input: seq<char>
    /** The letter class of the Unicode tables (`unicode.IsLetter`). */
    const letter: int -> bool
    /** `len(input)`, the input's size in bytes. */
    const size: nat := ByteLength(input)
    /** The byte offset of every rune index. */
    ghost const offsets: seq<nat> := Widths(input, |input|)

    var done: bool
    var start: Position
    var pos: Position
    var prev: Position
    /** Every token handed to the yield callback so far. */
    var tokens: seq<Token>

    /** `p` is the position of some rune index: its offset is the width of the runes before it. */
    ghost predicate Locates(p: Position) {
      1 <= p.column <= |input| + 1 && p.offset == offsets[p.column - 1]
    }

    ghost predicate Valid()
      reads this
    {
      Locates(start) && Locates(pos) && Locates(prev) && start.column <= pos.column
    }

    /** The object has made move `m`, ending in state `next`, after emitting `before`. */
    ghost predicate Took(m: Move, next: LexState, before: seq<Token>)
      reads this
    {
      next == m.next && start.column - 1 == m.start && pos.column - 1 == m.pos && tokens == before + m.emitted
    }

    constructor (input: seq<char>, letter: int -> bool)
      requires LetterClass(letter)
      ensures Valid() && this.input == input && this.letter == letter
      ensures start == pos && pos == prev && pos == Position(0, 1)
      ensures !done && tokens == []
    {
      this.input := input;
      this.letter := letter;
      WidthsAt(input, |input|, 0);
      done := false;
      start := Position(0, 1);
      pos := Position(0, 1);
      prev := Position(0, 1);
      tokens := [];
    }

    /** Consumes one rune and returns it, or EOF at the end; remembers the old position. */
    method Next() returns (r: int)
      requires Valid()
      modifies this
      ensures Valid() && prev == old(pos)
      ensures r == At(input, old(pos.column) - 1)
      ensures pos.column - 1 == Adv(input, old(pos.column) - 1)
      ensures start == old(start) && tokens == old(tokens) && done == old(done)
    {
      prev := pos;
      EndOffset(pos.column - 1);
      if pos.offset >= size {
        return EOF;
      }
      var i := pos.column - 1;
      r := input[i] as int;
      pos := Position(pos.offset + RuneWidth(input[i]), pos.column + 1);
      WidthsAt(input, |input|, i + 1);
    }

    /** The offset of index `i` has reached the size exactly when `i` is the end of the input. */
    lemma EndOffset(i: nat)
      requires i <= |input|
      ensures offsets[i] == PrefixWidth(input, i)
      ensures offsets[i] >= size <==> i == |input|
    {
      WidthsAt(input, |input|, i);
      PrefixWidthIsByteLength(input, |input|);
      assert input[..|input|] == input;
      OffsetAtEnd(input, i);
    }

    /** A located position is the position of its rune index. */
    lemma Placed(p: Position)
      requires Locates(p)
      ensures p == PosAt(input, p.column - 1)
    {
      WidthsAt(input, |input|, p.column - 1);
    }

    /** Steps back to the position before the last `Next`. */
    method Undo()
      requires Valid() && start.column <= prev.column
      modifies this
      ensures Valid() && pos == old(prev) && prev == old(prev)
      ensures start == old(start) && tokens == old(tokens) && done == old(done)
    {
      pos := prev;
    }

    /** The next rune, or EOF, without consuming it. */
    method Peek() returns (r: int)
      requires Valid()
      modifies this
      ensures Valid() && pos == old(pos) && prev == pos
      ensures r == At(input, pos.column - 1)
      ensures start == old(start) && tokens == old(tokens) && done == old(done)
    {
      r := Next();
      Undo();
    }

    /** The text of the current token: the runes from the token start up to the position. */
    function Text(): (t: string)
      reads this
      requires Valid()
      ensures t == Span(input, start.column - 1, pos.column - 1)
    {
      // Equal offsets mean equal indices, since every rune takes at least one byte.
      Placed(start);
      Placed(pos);
      SameOffsetSameIndex(input, start.column - 1, pos.column - 1);
      if start.offset == pos.offset then "" else Span(input, start.column - 1, pos.column - 1)
    }

    /** Hands the current token to the callback, unless lexing has stopped, and starts the next one here. */
    method Emit(typ: TokenType)
      requires Valid()
      modifies this
      ensures Valid() && start == pos && pos == old(pos) && done == old(done)
      ensures tokens == old(tokens) + (if old(done) then [] else [Token(typ, PosAt(input, old(start.column) - 1), Span(input, old(start.column) - 1, old(pos.column) - 1))])
    {
      // The callback accepts every token, so `done` is never set here.
      Placed(start);
      if !done {
        tokens := tokens + [Token(typ, start, Text())];
      }
      start := pos;
    }

    /** Drops the pending input. */
    method Ignore()
      requires Valid()
      modifies this
      ensures Valid() && start == pos && pos == old(pos)
      ensures tokens == old(tokens) && done == old(done)
    {
      start := pos;
    }

    /** Emits an error token at the token start and stops the machine. */
    method Errorf(message: string) returns (next: LexState)
      requires Valid()
      modifies this
      ensures Valid() && next == Stop && done
      ensures start == old(start) && pos == old(pos)
      ensures tokens == old(tokens) + [Token(TokenError, PosAt(input, old(start.column) - 1), message)]
    {
      Placed(start);
      tokens := tokens + [Token(TokenError, start, message)];
      done := true;
      next := Stop;
    }

    method LexTop() returns (next: LexState)
      requires Valid() && !done
      modifies this
      ensures Valid() && (done ==> next == Stop)
      ensures Took(TopMove(input, letter, old(start.column) - 1, old(pos.column) - 1), next, old(tokens))
    {
      var p := pos.column - 1;
      var ch := Peek();
      if ch == EOF {
        Ignore();
        Emit(TokenEOF);
        assert Span(input, p, p) == "";
        return Stop;
      } else if IsSpace(ch) {
        ch := Next();
        Ignore();
        return Top;
      } else if IsPunctuation(ch) {
        next := LexPunctuation(ch);
      } else if IsStringStart(ch) {
        return StringStart;
      } else if IsNumericSign(ch) || IsDigit(ch) {
        return Number;
      } else if letter(ch) {
        ch := Next();
        return IdentifierOrKeyword;
      } else {
        next := Errorf(UnexpectedCharacter(input[p]));
      }
    }

    /** The five punctuation cases of lexTop: consume the rune `ch` under the cursor and emit its kind. */
    method LexPunctuation(ch: int) returns (next: LexState)
      requires Valid() && !done && IsPunctuation(ch) && ch == At(input, pos.column - 1)
      modifies this
      ensures Valid() && !done && next == Top
      ensures Took(EmitAt(input, PunctuationKind(ch), old(start.column) - 1, old(pos.column)), next, old(tokens))
    {
      var r := Next();
      if ch == '^' as int || ch == '!' as int {
        Emit(TokenFieldPrefix);
      } else if ch == '=' as int {
        Emit(TokenAssign);
      } else if ch == ',' as int {
        Emit(TokenFieldSeparator);
      } else if ch == ';' as int {
        Emit(TokenListSeparator);
      } else {
        Emit(TokenPairSeparator);
      }
      return Top;
    }

    method LexIdentifierOrKeywordContinue() returns (next: LexState)
      requires Valid() && !done
      modifies this
      ensures Valid() && (done ==> next == Stop)
      ensures Took(IdentifierOrKeywordMove(input, letter, old(start.column) - 1, old(pos.column) - 1), next, old(tokens))
    {
      var ch := Peek();
      if IsIdentifierContinue(letter, ch) {
        ch := Next();
        return IdentifierOrKeyword;
      }
      var text := Text();
      if text == "true" {
        Emit(TokenTrue);
      } else if text == "false" {
        Emit(TokenFalse);
      } else if text == "nil" {
        Emit(TokenNil);
      } else {
        Emit(TokenIdentifier);
      }
      return Top;
    }

    method LexString() returns (next: LexState)
      requires Valid() && !done
      modifies this
      ensures Valid() && (done ==> next == Stop)
      ensures Took(StringStartMove(input, old(start.column) - 1, old(pos.column) - 1), next, old(tokens))
    {
      var quote := Next();
      return StringContent(quote);
    }

    method LexStringContent(quote: int) returns (next: LexState)
      requires Valid() && !done
      modifies this
      ensures Valid() && (done ==> next == Stop)
      ensures Took(StringContentMove(input, quote, old(start.column) - 1, old(pos.column) - 1), next, old(tokens))
    {
      var ch := Next();
      if ch == EOF {
        next := Errorf(UnterminatedString);
      } else if ch == quote {
        Emit(TokenString);
        next := Top;
      } else if ch == '\\' as int {
        next := LexStringEscape(quote);
      } else {
        next := StringContent(quote);
      }
    }

    /** Right after a backslash: the escaped rune is taken along, whatever it is. */
    method LexStringEscape(quote: int) returns (next: LexState)
      requires Valid() && !done
      modifies this
      ensures Valid() && (done ==> next == Stop)
      ensures Took(EscapeMove(input, quote, old(start.column) - 1, old(pos.column) - 1), next, old(tokens))
    {
      var ch := Next();
      if ch == EOF {
        next := Errorf(UnterminatedEscape);
        return;
      }
      next := StringContent(quote);
    }

    method LexNumber() returns (next: LexState)
      requires Valid() && !done
      modifies this
      ensures Valid() && (done ==> next == Stop)
      ensures Took(NumberMove(input, old(start.column) - 1, old(pos.column) - 1), next, old(tokens))
    {
      ghost var s, p := start.column - 1, pos.column - 1;
      var ch := Peek();
      if IsNumericSign(ch) {
        ch := Next();
      }
      ghost var k := pos.column - 1;
      assert k == if IsNumericSign(At(input, p)) then Adv(input, p) else p;
      ch := Peek();
      if ch == '0' as int {
        ch := Next();
        assert NumberMove(input, s, p) == ZeroMove(input, s, pos.column - 1);
        next := LexZero();
        return;
      }
      assert NumberMove(input, s, p) == Goto(DecimalDigits, s, k);
      return DecimalDigits;
    }

    /** The rest of lexNumber once a leading `0` is consumed: a base prefix, more digits, a fraction, or the lone zero. */
    method LexZero() returns (next: LexState)
      requires Valid() && !done
      modifies this
      ensures Valid() && (done ==> next == Stop)
      ensures Took(ZeroMove(input, old(start.column) - 1, old(pos.column) - 1), next, old(tokens))
    {
      ghost var s, k := start.column - 1, pos.column - 1;
      var ch := Peek();
      if ch == 'x' as int || ch == 'X' as int {
        ch := Next();
        assert ZeroMove(input, s, k) == Goto(HexDigits, s, pos.column - 1);
        return HexDigits;
      } else if ch == 'o' as int || ch == 'O' as int {
        ch := Next();
        assert ZeroMove(input, s, k) == Goto(OctalDigits, s, pos.column - 1);
        return OctalDigits;
      } else if ch == 'b' as int || ch == 'B' as int {
        ch := Next();
        assert ZeroMove(input, s, k) == Goto(BinaryDigits, s, pos.column - 1);
        return BinaryDigits;
      } else if IsDigit(ch) || ch == '_' as int {
        assert ZeroMove(input, s, k) == Goto(DecimalDigits, s, k);
        return DecimalDigits;
      } else if ch == '.' as int {
        assert ZeroMove(input, s, k) == Goto(DecimalFraction, s, k);
        return DecimalFraction;
      }
      // Just "0".
      assert ZeroMove(input, s, k) == EmitAt(input, TokenNumber, s, k);
      Emit(TokenNumber);
      return Top;
    }

    method LexDecimalDigits() returns (next: LexState)
      requires Valid() && !done
      modifies this
      ensures Valid() && (done ==> next == Stop)
      ensures Took(DecimalDigitsMove(input, old(start.column) - 1, old(pos.column) - 1), next, old(tokens))
    {
      var ch := Peek();
      if IsDigit(ch) || ch == '_' as int {
        ch := Next();
        return DecimalDigits;
      }
      if ch == '.' as int {
        return DecimalFraction;
      }
      if ch == 'e' as int || ch == 'E' as int {
        return Exponent;
      }
      Emit(TokenNumber);
      return Top;
    }

    method LexDecimalFraction() returns (next: LexState)
      requires Valid() && !done
      modifies this
      ensures Valid() && (done ==> next == Stop)
      ensures Took(DecimalFractionMove(input, old(start.column) - 1, old(pos.column) - 1), next, old(tokens))
    {
      var dot := Next();
      return DecimalFractionDigits;
    }

    method LexDecimalFractionDigits() returns (next: LexState)
      requires Valid() && !done
      modifies this
      ensures Valid() && (done ==> next == Stop)
      ensures Took(DecimalFractionDigitsMove(input, old(start.column) - 1, old(pos.column) - 1), next, old(tokens))
    {
      var ch := Peek();
      if IsDigit(ch) || ch == '_' as int {
        ch := Next();
        return DecimalFractionDigits;
      }
      if ch == 'e' as int || ch == 'E' as int {
        return Exponent;
      }
      Emit(TokenNumber);
      return Top;
    }

    method LexExponent() returns (next: LexState)
      requires Valid() && !done
      modifies this
      ensures Valid() && (done ==> next == Stop)
      ensures Took(ExponentMove(input, old(start.column) - 1, old(pos.column) - 1), next, old(tokens))
    {
      ghost var s, p := start.column - 1, pos.column - 1;
      var ch := Next();
      ghost var q := pos.column - 1;
      ch := Peek();
      if IsNumericSign(ch) {
        ch := Next();
      }
      ghost var k := pos.column - 1;
      assert k == if IsNumericSign(At(input, q)) then Adv(input, q) else q;
      ch := Peek();
      if !IsDigit(ch) {
        assert ExponentMove(input, s, p) == ErrorAt(input, DecimalExponentMessage, s, k);
        next := Errorf(DecimalExponentMessage);
        return;
      }
      assert ExponentMove(input, s, p) == Goto(ExponentDigits, s, k);
      return ExponentDigits;
    }

    method LexExponentDigits() returns (next: LexState)
      requires Valid() && !done
      modifies this
      ensures Valid() && (done ==> next == Stop)
      ensures Took(ExponentDigitsMove(input, old(start.column) - 1, old(pos.column) - 1), next, old(tokens))
    {
      var ch := Peek();
      if IsDigit(ch) || ch == '_' as int {
        ch := Next();
        return ExponentDigits;
      }
      Emit(TokenNumber);
      return Top;
    }

    method LexHexDigits() returns (next: LexState)
      requires Valid() && !done
      modifies this
      ensures Valid() && (done ==> next == Stop)
      ensures Took(HexDigitsMove(input, old(start.column) - 1, old(pos.column) - 1), next, old(tokens))
    {
      var ch := Peek();
      if !IsHexDigit(ch) {
        next := Errorf(HexDigitMessage);
        return;
      }
      return HexDigitsContinue;
    }

    method LexHexDigitsContinue() returns (next: LexState)
      requires Valid() && !done
      modifies this
      ensures Valid() && (done ==> next == Stop)
      ensures Took(HexDigitsContinueMove(input, old(start.column) - 1, old(pos.column) - 1), next, old(tokens))
    {
      var ch := Peek();
      if IsHexDigit(ch) || ch == '_' as int {
        ch := Next();
        return HexDigitsContinue;
      }
      if ch == '.' as int {
        return HexFraction;
      }
      if ch == 'p' as int || ch == 'P' as int {
        return HexExponent;
      }
      Emit(TokenNumber);
      return Top;
    }

    method LexHexFraction() returns (next: LexState)
      requires Valid() && !done
      modifies this
      ensures Valid() && (done ==> next == Stop)
      ensures Took(HexFractionMove(input, old(start.column) - 1, old(pos.column) - 1), next, old(tokens))
    {
      var dot := Next();
      return HexFractionDigits;
    }

    method LexHexFractionDigits() returns (next: LexState)
      requires Valid() && !done
      modifies this
      ensures Valid() && (done ==> next == Stop)
      ensures Took(HexFractionDigitsMove(input, old(start.column) - 1, old(pos.column) - 1), next, old(tokens))
    {
      var ch := Peek();
      if IsHexDigit(ch) || ch == '_' as int {
        ch := Next();
        return HexFractionDigits;
      }
      if ch == 'p' as int || ch == 'P' as int {
        return HexExponent;
      }
      Emit(TokenNumber);
      return Top;
    }

    method LexHexExponent() returns (next: LexState)
      requires Valid() && !done
      modifies this
      ensures Valid() && (done ==> next == Stop)
      ensures Took(HexExponentMove(input, old(start.column) - 1, old(pos.column) - 1), next, old(tokens))
    {
      ghost var s, p := start.column - 1, pos.column - 1;
      var ch := Next();
      ghost var q := pos.column - 1;
      ch := Peek();
      if IsNumericSign(ch) {
        ch := Next();
      }
      ghost var k := pos.column - 1;
      assert k == if IsNumericSign(At(input, q)) then Adv(input, q) else q;
      ch := Peek();
      if !IsDigit(ch) {
        assert HexExponentMove(input, s, p) == ErrorAt(input, HexExponentMessage, s, k);
        next := Errorf(HexExponentMessage);
        return;
      }
      assert HexExponentMove(input, s, p) == Goto(HexExponentDigits, s, k);
      return HexExponentDigits;
    }

    method LexHexExponentDigits() returns (next: LexState)
      requires Valid() && !done
      modifies this
      ensures Valid() && (done ==> next == Stop)
      ensures Took(HexExponentDigitsMove(input, old(start.column) - 1, old(pos.column) - 1), next, old(tokens))
    {
      var ch := Peek();
      if IsDigit(ch) || ch == '_' as int {
        ch := Next();
        return HexExponentDigits;
      }
      Emit(TokenNumber);
      return Top;
    }

    method LexOctalDigits() returns (next: LexState)
      requires Valid() && !done
      modifies this
      ensures Valid() && (done ==> next == Stop)
      ensures Took(OctalDigitsMove(input, old(start.column) - 1, old(pos.column) - 1), next, old(tokens))
    {
      var ch := Peek();
      if !IsOctalDigit(ch) {
        next := Errorf(OctalDigitMessage);
        return;
      }
      return OctalDigitsContinue;
    }

    method LexOctalDigitsContinue() returns (next: LexState)
      requires Valid() && !done
      modifies this
      ensures Valid() && (done ==> next == Stop)
      ensures Took(OctalDigitsContinueMove(input, old(start.column) - 1, old(pos.column) - 1), next, old(tokens))
    {
      var ch := Peek();
      if IsOctalDigit(ch) || ch == '_' as int {
        ch := Next();
        return OctalDigitsContinue;
      }
      Emit(TokenNumber);
      return Top;
    }

    method LexBinaryDigits() returns (next: LexState)
      requires Valid() && !done
      modifies this
      ensures Valid() && (done ==> next == Stop)
      ensures Took(BinaryDigitsMove(input, old(start.column) - 1, old(pos.column) - 1), next, old(tokens))
    {
      var ch := Peek();
      if !IsBinaryDigit(ch) {
        next := Errorf(BinaryDigitMessage);
        return;
      }
      return BinaryDigitsContinue;
    }

    method LexBinaryDigitsContinue() returns (next: LexState)
      requires Valid() && !done
      modifies this
      ensures Valid() && (done ==> next == Stop)
      ensures Took(BinaryDigitsContinueMove(input, old(start.column) - 1, old(pos.column) - 1), next, old(tokens))
    {
      var ch := Peek();
      if IsBinaryDigit(ch) || ch == '_' as int {
        ch := Next();
        return BinaryDigitsContinue;
      }
      Emit(TokenNumber);
      return Top;
    }

    /** Runs the state function `st` stands for. */
    /**
     * Calls the state function of `st` (runPattern's `state(l)`), and names the move it made:
     * a sound one, that keeps what the machine still owes.
     */
    method Dispatch(st: LexState) returns (next: LexState, ghost m: Move)
      requires Valid() && !done && st != Stop && LetterClass(letter)
      requires StateInv(input, st, start.column - 1, pos.column - 1)
      modifies this
      ensures Valid() && (done ==> next == Stop)
      ensures Took(m, next, old(tokens)) && Sound(input, letter, st, old(start.column) - 1, old(pos.column) - 1, m)
    {
      if st.Top? || st.IdentifierOrKeyword? || st.StringStart? || st.StringContent? {
        next, m := DispatchText(st);
      } else if st.Number? || st.DecimalDigits? || st.DecimalFraction? || st.DecimalFractionDigits? || st.Exponent? || st.ExponentDigits? {
        next, m := DispatchDecimal(st);
      } else if st.HexDigits? || st.HexDigitsContinue? || st.HexFraction? || st.HexFractionDigits? || st.HexExponent? || st.HexExponentDigits? {
        next, m := DispatchHex(st);
      } else {
        next, m := DispatchBased(st);
      }
    }

    /** Dispatch for the states outside numbers. */
    method DispatchText(st: LexState) returns (next: LexState, ghost m: Move)
      requires Valid() && !done && LetterClass(letter) && (st.Top? || st.IdentifierOrKeyword? || st.StringStart? || st.StringContent?)
      requires StateInv(input, st, start.column - 1, pos.column - 1)
      modifies this
      ensures Valid() && (done ==> next == Stop)
      ensures Took(m, next, old(tokens)) && Sound(input, letter, st, old(start.column) - 1, old(pos.column) - 1, m)
    {
      ghost var s, p := start.column - 1, pos.column - 1;
      match st
      case Top =>
        next := LexTop();
        m := TopMove(input, letter, s, p);
        TopSound(input, letter, s, p);
      case IdentifierOrKeyword =>
        next := LexIdentifierOrKeywordContinue();
        m := IdentifierOrKeywordMove(input, letter, s, p);
        IdentifierOrKeywordSound(input, letter, s, p);
      case StringStart =>
        next := LexString();
        m := StringStartMove(input, s, p);
        StringStartSound(input, letter, s, p);
      case StringContent(quote) =>
        next := LexStringContent(quote);
        m := StringContentMove(input, quote, s, p);
        StringContentSound(input, letter, quote, s, p);
    }

    /** Dispatch for the decimal number states. */
    method DispatchDecimal(st: LexState) returns (next: LexState, ghost m: Move)
      requires Valid() && !done && LetterClass(letter) && (st.Number? || st.DecimalDigits? || st.DecimalFraction? || st.DecimalFractionDigits? || st.Exponent? || st.ExponentDigits?)
      requires StateInv(input, st, start.column - 1, pos.column - 1)
      modifies this
      ensures Valid() && (done ==> next == Stop)
      ensures Took(m, next, old(tokens)) && Sound(input, letter, st, old(start.column) - 1, old(pos.column) - 1, m)
    {
      ghost var s, p := start.column - 1, pos.column - 1;
      match st
      case Number =>
        next := LexNumber();
        m := NumberMove(input, s, p);
        NumberSound(input, letter, s, p);
      case DecimalDigits =>
        next := LexDecimalDigits();
        m := DecimalDigitsMove(input, s, p);
        DecimalDigitsSound(input, letter, s, p);
      case DecimalFraction =>
        next := LexDecimalFraction();
        m := DecimalFractionMove(input, s, p);
        DecimalFractionSound(input, letter, s, p);
      case DecimalFractionDigits =>
        next := LexDecimalFractionDigits();
        m := DecimalFractionDigitsMove(input, s, p);
        DecimalFractionDigitsSound(input, letter, s, p);
      case Exponent =>
        next := LexExponent();
        m := ExponentMove(input, s, p);
        ExponentSound(input, letter, s, p);
      case ExponentDigits =>
        next := LexExponentDigits();
        m := ExponentDigitsMove(input, s, p);
        ExponentDigitsSound(input, letter, s, p);
    }

    /** Dispatch for the hexadecimal number states. */
    method DispatchHex(st: LexState) returns (next: LexState, ghost m: Move)
      requires Valid() && !done && LetterClass(letter) && (st.HexDigits? || st.HexDigitsContinue? || st.HexFraction? || st.HexFractionDigits? || st.HexExponent? || st.HexExponentDigits?)
      requires StateInv(input, st, start.column - 1, pos.column - 1)
      modifies this
      ensures Valid() && (done ==> next == Stop)
      ensures Took(m, next, old(tokens)) && Sound(input, letter, st, old(start.column) - 1, old(pos.column) - 1, m)
    {
      ghost var s, p := start.column - 1, pos.column - 1;
      match st
      case HexDigits =>
        next := LexHexDigits();
        m := HexDigitsMove(input, s, p);
        HexDigitsSound(input, letter, s, p);
      case HexDigitsContinue =>
        next := LexHexDigitsContinue();
        m := HexDigitsContinueMove(input, s, p);
        HexDigitsContinueSound(input, letter, s, p);
      case HexFraction =>
        next := LexHexFraction();
        m := HexFractionMove(input, s, p);
        HexFractionSound(input, letter, s, p);
      case HexFractionDigits =>
        next := LexHexFractionDigits();
        m := HexFractionDigitsMove(input, s, p);
        HexFractionDigitsSound(input, letter, s, p);
      case HexExponent =>
        next := LexHexExponent();
        m := HexExponentMove(input, s, p);
        HexExponentSound(input, letter, s, p);
      case HexExponentDigits =>
        next := LexHexExponentDigits();
        m := HexExponentDigitsMove(input, s, p);
        HexExponentDigitsSound(input, letter, s, p);
    }

    /** Dispatch for the octal and binary number states. */
    method DispatchBased(st: LexState) returns (next: LexState, ghost m: Move)
      requires Valid() && !done && LetterClass(letter) && (st.OctalDigits? || st.OctalDigitsContinue? || st.BinaryDigits? || st.BinaryDigitsContinue?)
      requires StateInv(input, st, start.column - 1, pos.column - 1)
      modifies this
      ensures Valid() && (done ==> next == Stop)
      ensures Took(m, next, old(tokens)) && Sound(input, letter, st, old(start.column) - 1, old(pos.column) - 1, m)
    {
      ghost var s, p := start.column - 1, pos.column - 1;
      match st
      case OctalDigits =>
        next := LexOctalDigits();
        m := OctalDigitsMove(input, s, p);
        OctalDigitsSound(input, letter, s, p);
      case OctalDigitsContinue =>
        next := LexOctalDigitsContinue();
        m := OctalDigitsContinueMove(input, s, p);
        OctalDigitsContinueSound(input, letter, s, p);
      case BinaryDigits =>
        next := LexBinaryDigits();
        m := BinaryDigitsMove(input, s, p);
        BinaryDigitsSound(input, letter, s, p);
      case BinaryDigitsContinue =>
        next := LexBinaryDigitsContinue();
        m := BinaryDigitsContinueMove(input, s, p);
        BinaryDigitsContinueSound(input, letter, s, p);
    }

    /** One round of the loop in runPattern: the current state function runs, and what is owed shrinks by what it emitted. */
    method Step(st: LexState, ghost total: seq<Token>) returns (next: LexState)
      requires Valid() && !done && st != Stop
      requires Owes(input, letter, st, start.column - 1, pos.column - 1, tokens, total)
      modifies this
      ensures Valid() && (done ==> next == Stop)
      ensures Owes(input, letter, next, start.column - 1, pos.column - 1, tokens, total)
      ensures Below(Measure(input, next, start.column - 1, pos.column - 1), Measure(input, st, old(start.column) - 1, old(pos.column) - 1))
    {
      ghost var s, p, before := start.column - 1, pos.column - 1, tokens;
      ghost var m;
      next, m := Dispatch(st);
      StepKeeps(input, letter, st, s, p, before, m, next, start.column - 1, pos.column - 1, tokens, total);
    }

    /** Runs the machine from the top state until it stops. */
    method RunPattern()
      requires Valid() && LetterClass(letter) && !done && start == pos
      modifies this
      ensures Valid()
      ensures tokens == old(tokens) + Tokenize(input, letter, old(pos.column) - 1)
    {
      var state := Top;
      ghost var total := old(tokens) + Tokenize(input, letter, pos.column - 1);
      DriveFromTop(input, letter, pos.column - 1);
      while state != Stop
        invariant Valid() && (done ==> state == Stop)
        invariant Owes(input, letter, state, start.column - 1, pos.column - 1, tokens, total)
        decreases Measure(input, state, start.column - 1, pos.column - 1).0, Measure(input, state, start.column - 1, pos.column - 1).1, Measure(input, state, start.column - 1, pos.column - 1).2
      {
        if done {
          break;
        }
        state := Step(state, total);
      }
    }
  }

  /** The whole token stream of `input`, as the iterator returned by `Lex` yields it. */
  method Lex(input: seq<char>, letter: int -> bool) returns (tokens: seq<Token>)
    requires LetterClass(letter)
    ensures tokens == LexSpec.Lex(input, letter)
    ensures WellFormed(input, tokens, 0)
  {
    var l := new Lexer(input, letter);
    l.RunPattern();
    tokens := l.tokens;
    assert tokens == Tokenize(input, letter, 0);
    TokenizeWellFormed(input, letter, 0);
  }
}
