/**
 * The older value event, which keeps the token kind instead of a value kind,
 * and its conversions (valueevent.go).
 */
module ValueEvents {
  import opened Wrappers
  import opened Tokens
  import opened Strconv
  import opened Values

  datatype ValueEvent = ValueEvent(typ: TokenType, value: string)

  function CannotConvertFrom(t: TokenType, target: string): ConversionError {
    CannotConvert("cannot convert " + TokenTypeString(t) + " to " + target)
  }

  predicate IsNil(e: ValueEvent) {
    e.typ == TokenNil
  }

  /** String tokens are unquoted by `unquote`; identifiers and numbers give their raw text; the rest fail. */
  function ToString(e: ValueEvent, unquote: string -> Option<string>): (r: Result<string, ConversionError>)
    ensures e.typ == TokenIdentifier || e.typ == TokenNumber ==> r == Success(e.value)
    ensures e.typ == TokenString ==> (r.Success? <==> unquote(e.value).Some?)
    ensures e.typ == TokenString && unquote(e.value).Some? ==> r == Success(unquote(e.value).value)
    ensures e.typ !in {TokenIdentifier, TokenNumber, TokenString} ==> r == Failure(CannotConvertFrom(e.typ, "string"))
  {
    if e.typ == TokenString then
      match unquote(e.value)
      case Some(s) => Success(s)
      case None => Failure(UnquoteError)
    else if e.typ == TokenIdentifier || e.typ == TokenNumber then Success(e.value)
    else Failure(CannotConvertFrom(e.typ, "string"))
  }

  function ToInt(e: ValueEvent): (r: Result<int, ConversionError>)
    ensures e.typ != TokenNumber ==> r == Failure(CannotConvertFrom(e.typ, "int"))
    ensures r.Success? ==> MinInt64 <= r.value < Int64Cutoff
  {
    if e.typ != TokenNumber then Failure(CannotConvertFrom(e.typ, "int"))
    else match ParseInt(e.value)
      case Success(i) => Success(i)
      case Failure(err) => Failure(NumberError(err))
  }

  function ToUint(e: ValueEvent): (r: Result<nat, ConversionError>)
    ensures e.typ != TokenNumber ==> r == Failure(CannotConvertFrom(e.typ, "uint"))
    ensures r.Success? ==> r.value <= MaxUint64
  {
    if e.typ != TokenNumber then Failure(CannotConvertFrom(e.typ, "uint"))
    else match ParseUint(e.value)
      case Success(n) => Success(n)
      case Failure(err) => Failure(NumberError(err))
  }

  /** The type guard of the float conversion; the parse that follows it is not modelled. */
  function ToFloatGuard(e: ValueEvent): (r: Option<ConversionError>)
    ensures r.None? <==> e.typ == TokenNumber
  {
    if e.typ != TokenNumber then Some(CannotConvertFrom(e.typ, "float")) else None
  }

  /** Here the kind decides, not the text: True is true, False is false, the rest fail. */
  function ToBool(e: ValueEvent): (r: Result<bool, ConversionError>)
    ensures r.Success? <==> e.typ == TokenTrue || e.typ == TokenFalse
    ensures r.Success? ==> (r.value <==> e.typ == TokenTrue)
    ensures r.Failure? ==> r.error == CannotConvertFrom(e.typ, "bool")
  {
    if e.typ == TokenTrue then Success(true)
    else if e.typ == TokenFalse then Success(false)
    else Failure(CannotConvertFrom(e.typ, "bool"))
  }

  /**
   * Both generations of the value model agree on numbers: an event and the
   * value built from the same token convert to the same integers.
   */
  lemma AgreesWithValue(token: Token)
    requires token.typ == TokenNumber
    ensures ToInt(ValueEvent(token.typ, token.val)) == Values.ToInt(ValueFromToken(token))
    ensures ToUint(ValueEvent(token.typ, token.val)) == Values.ToUint(ValueFromToken(token))
  {
  }

  /** An event is nil exactly when the value made from the same token is nil. */
  lemma NilAgreesWithValue(token: Token)
    ensures IsNil(ValueEvent(token.typ, token.val)) <==> Values.IsNil(ValueFromToken(token))
  {
  }

  /** For boolean tokens the two generations agree when the text is the keyword, as the lexer guarantees. */
  lemma BoolAgreesWithValue(token: Token)
    requires token.typ == TokenTrue ==> token.val == "true"
    requires token.typ == TokenFalse ==> token.val == "false"
    ensures ToBool(ValueEvent(token.typ, token.val)).Success? <==> Values.ToBool(ValueFromToken(token)).Success?
    ensures ToBool(ValueEvent(token.typ, token.val)).Success? ==>
              ToBool(ValueEvent(token.typ, token.val)).value == Values.ToBool(ValueFromToken(token)).value
  {
  }

  lemma EventExamples()
    ensures ToInt(ValueEvent(TokenNumber, "-42")) == Success(-42)
    ensures ToUint(ValueEvent(TokenNumber, "-42")).Failure?
    ensures ToInt(ValueEvent(TokenNumber, "23")) == Success(23) && ToUint(ValueEvent(TokenNumber, "23")) == Success(23)
    ensures ToBool(ValueEvent(TokenTrue, "true")) == Success(true)
    ensures ToBool(ValueEvent(TokenString, "\"x\"")).Failure?
  {
    DecimalExamples();
    SignRejectedByParseUint();
  }
}
