/** Lexical token kinds and tokens (token.go). */
module Tokens {
  import opened Format
  import opened Positions

  /** Token kinds are plain integers, so undeclared values exist and have a rendering. */
  newtype TokenType = int

  const TokenError: TokenType := 0
  const TokenEOF: TokenType := 1
  const TokenFieldPrefix: TokenType := 2
  const TokenIdentifier: TokenType := 3
  const TokenAssign: TokenType := 4
  const TokenNumber: TokenType := 5
  const TokenString: TokenType := 6
  const TokenTrue: TokenType := 7
  const TokenFalse: TokenType := 8
  const TokenNil: TokenType := 9
  const TokenFieldSeparator: TokenType := 10
  const TokenListSeparator: TokenType := 11
  const TokenPairSeparator: TokenType := 12

  /** Names of the declared kinds, indexed by their value. */
  const TokenNames: seq<string> := [
    "Error", "EOF", "FieldPrefix", "Identifier", "Assign", "Number", "String",
    "True", "False", "Nil", "FieldSeparator", "ListSeparator", "PairSeparator"]

  predicate IsDeclared(t: TokenType) {
    0 <= t < |TokenNames| as TokenType
  }

  /** The kind's name; an undeclared kind prints as `TokenType(<n>)`. */
  function TokenTypeString(t: TokenType): (s: string)
    ensures IsDeclared(t) ==> s == TokenNames[t]
    ensures !IsDeclared(t) ==> s == "TokenType(" + (IntToString(t as int) + ")")
  {
    if IsDeclared(t) then TokenNames[t] else "TokenType(" + (IntToString(t as int) + ")")
  }

  datatype Token = Token(typ: TokenType, pos: Position, val: string)

  /** The declared names are pairwise distinct and none ends like the fallback rendering. */
  lemma TokenNamesDistinct()
    ensures forall i, j :: 0 <= i < j < |TokenNames| ==> TokenNames[i] != TokenNames[j]
    ensures forall i :: 0 <= i < |TokenNames| ==> 0 < |TokenNames[i]| && TokenNames[i][|TokenNames[i]| - 1] != ')'
  {
  }

  /** Distinct kinds never share a name, declared or not. */
  lemma TokenTypeStringInjective(t: TokenType, u: TokenType)
    requires TokenTypeString(t) == TokenTypeString(u)
    ensures t == u
  {
    TokenNamesDistinct();
    if !IsDeclared(t) && !IsDeclared(u) {
      var nt, nu := IntToString(t as int), IntToString(u as int);
      DropPrefix("TokenType(", nt + ")", nu + ")");
      assert nt == (nt + ")")[..|nt|];
      assert nu == (nu + ")")[..|nu|];
      IntToStringInjective(t as int, u as int);
    }
  }

  lemma TokenTypeStringExamples()
    ensures TokenTypeString(TokenPairSeparator) == "PairSeparator"
    ensures TokenTypeString(9999) == "TokenType(9999)"
    ensures TokenTypeString(-42) == "TokenType(-42)"
  {
  }
}
