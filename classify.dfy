/**
 * Rune classes the lexer dispatches on (classify.go). A rune is an `int`, as in
 * Go, so that the end-of-input marker -1 can be asked about like any rune.
 */
module Classify {

  /** Returned in place of a rune when the input is exhausted. */
  const EOF: int := -1

  predicate IsSpace(ch: int) {
    ch == ' ' as int || ch == '\t' as int || ch == '\n' as int || ch == '\r' as int
  }

  predicate IsAsciiLetter(ch: int) {
    'a' as int <= ch <= 'z' as int || 'A' as int <= ch <= 'Z' as int
  }

  /**
   * What is known of Unicode's letter category without its tables: on ASCII it
   * is exactly the Latin letters, and no negative value is a letter.
   */
  ghost predicate LetterClass(letter: int -> bool) {
    forall ch: int :: ch < 0x80 ==> (letter(ch) <==> IsAsciiLetter(ch))
  }

  predicate IsDigit(ch: int) {
    '0' as int <= ch <= '9' as int
  }

  predicate IsHexDigit(ch: int) {
    IsDigit(ch) || 'a' as int <= ch <= 'f' as int || 'A' as int <= ch <= 'F' as int
  }

  predicate IsOctalDigit(ch: int) {
    '0' as int <= ch <= '7' as int
  }

  predicate IsBinaryDigit(ch: int) {
    ch == '0' as int || ch == '1' as int
  }

  predicate IsStringStart(ch: int) {
    ch == '"' as int || ch == '\'' as int
  }

  predicate IsNumericSign(ch: int) {
    ch == '+' as int || ch == '-' as int
  }

  predicate IsIdentifierContinue(letter: int -> bool, ch: int) {
    letter(ch) || IsDigit(ch) || ch == '-' as int || ch == '_' as int
  }

  /** The digit classes nest: binary within octal within decimal within hexadecimal. */
  lemma DigitClassesNest(ch: int)
    ensures IsBinaryDigit(ch) ==> IsOctalDigit(ch)
    ensures IsOctalDigit(ch) ==> IsDigit(ch)
    ensures IsDigit(ch) ==> IsHexDigit(ch)
  {
  }

  /** The end-of-input marker belongs to no class, so every "while the next rune is ..." loop stops there. */
  lemma EofInNoClass(letter: int -> bool)
    requires LetterClass(letter)
    ensures !IsSpace(EOF) && !IsHexDigit(EOF) && !IsStringStart(EOF) && !IsNumericSign(EOF)
    ensures !IsIdentifierContinue(letter, EOF)
  {
  }

  /**
   * The classes the top-level lexer state tries in turn are pairwise disjoint,
   * so the order of its cases never decides which one applies.
   */
  lemma TopClassesDisjoint(letter: int -> bool, ch: int)
    requires LetterClass(letter)
    ensures IsSpace(ch) ==> !IsStringStart(ch) && !IsNumericSign(ch) && !IsDigit(ch) && !letter(ch)
    ensures IsStringStart(ch) ==> !IsNumericSign(ch) && !IsDigit(ch) && !letter(ch)
    ensures IsNumericSign(ch) || IsDigit(ch) ==> !letter(ch)
    ensures ch in {'^' as int, '!' as int, '=' as int, ',' as int, ';' as int, ':' as int} ==>
              !IsSpace(ch) && !IsStringStart(ch) && !IsNumericSign(ch) && !IsDigit(ch) && !letter(ch)
  {
  }
}
