/** Parsed values and their typed conversions (value.go). */
module Values {
  import opened Wrappers
  import opened Format
  import opened Tokens
  import opened Strconv

  /** Value kinds are plain integers, as token kinds are. */
  newtype ValueType = int

  const ZeroValue: ValueType := 0
  const NilValue: ValueType := 1
  const BooleanValue: ValueType := 2
  const NumberValue: ValueType := 3
  const StringValue: ValueType := 4
  const IdentifierValue: ValueType := 5

  const ValueTypeNames: seq<string> := ["zero", "nil", "boolean", "number", "string", "identifier"]

  /** The kind's name; an undeclared kind prints as `ValueType(<n>)`. */
  function ValueTypeString(vt: ValueType): (s: string)
    ensures 0 <= vt < 6 ==> s == ValueTypeNames[vt]
    ensures !(0 <= vt < 6) ==> s == "ValueType(" + (IntToString(vt as int) + ")")
  {
    if 0 <= vt < |ValueTypeNames| as ValueType then ValueTypeNames[vt]
    else "ValueType(" + (IntToString(vt as int) + ")")
  }

  /** Distinct kinds never share a name, so error messages identify the kind. */
  lemma ValueTypeStringInjective(a: ValueType, b: ValueType)
    requires ValueTypeString(a) == ValueTypeString(b)
    ensures a == b
  {
    if !(0 <= a < 6) && !(0 <= b < 6) {
      var na, nb := IntToString(a as int), IntToString(b as int);
      DropPrefix("ValueType(", na + ")", nb + ")");
      assert na == (na + ")")[..|na|];
      assert nb == (nb + ")")[..|nb|];
      IntToStringInjective(a as int, b as int);
    }
  }

  datatype Value = Value(typ: ValueType, value: string)

  /** Why a conversion failed: the kind does not convert, the number does not parse, or the string literal is malformed. */
  datatype ConversionError = CannotConvert(message: string) | NumberError(cause: NumError) | UnquoteError

  function CannotConvertTo(vt: ValueType, target: string): ConversionError {
    CannotConvert("cannot convert " + ValueTypeString(vt) + " to " + target)
  }

  predicate IsZero(v: Value) {
    v.typ == ZeroValue
  }

  predicate IsNil(v: Value) {
    v.typ == NilValue
  }

  /**
   * A string value is unquoted by Go's string-literal rules, given here as
   * `unquote` (None for a malformed literal); identifiers and numbers convert
   * to their raw text; every other kind fails.
   */
  function ToString(v: Value, unquote: string -> Option<string>): (r: Result<string, ConversionError>)
    ensures v.typ == IdentifierValue || v.typ == NumberValue ==> r == Success(v.value)
    ensures v.typ == StringValue ==> (r.Success? <==> unquote(v.value).Some?)
    ensures v.typ == StringValue && unquote(v.value).Some? ==> r == Success(unquote(v.value).value)
    ensures v.typ !in {IdentifierValue, NumberValue, StringValue} ==> r == Failure(CannotConvertTo(v.typ, "string"))
  {
    if v.typ == StringValue then
      match unquote(v.value)
      case Some(s) => Success(s)
      case None => Failure(UnquoteError)
    else if v.typ == IdentifierValue || v.typ == NumberValue then Success(v.value)
    else Failure(CannotConvertTo(v.typ, "string"))
  }

  /** Numbers convert as signed 64-bit integer literals of any base. */
  function ToInt(v: Value): (r: Result<int, ConversionError>)
    ensures v.typ != NumberValue ==> r == Failure(CannotConvertTo(v.typ, "int"))
    ensures r.Success? ==> MinInt64 <= r.value < Int64Cutoff
  {
    if v.typ != NumberValue then Failure(CannotConvertTo(v.typ, "int"))
    else match ParseInt(v.value)
      case Success(i) => Success(i)
      case Failure(e) => Failure(NumberError(e))
  }

  /** Numbers convert as unsigned 64-bit integer literals of any base; a sign is a syntax error. */
  function ToUint(v: Value): (r: Result<nat, ConversionError>)
    ensures v.typ != NumberValue ==> r == Failure(CannotConvertTo(v.typ, "uint"))
    ensures r.Success? ==> r.value <= MaxUint64
  {
    if v.typ != NumberValue then Failure(CannotConvertTo(v.typ, "uint"))
    else match ParseUint(v.value)
      case Success(n) => Success(n)
      case Failure(e) => Failure(NumberError(e))
  }

  /** The type guard of the float conversion; the parse that follows it is not modelled. */
  function ToFloatGuard(v: Value): (r: Option<ConversionError>)
    ensures r.None? <==> v.typ == NumberValue
  {
    if v.typ != NumberValue then Some(CannotConvertTo(v.typ, "float")) else None
  }

  /** Booleans convert by their text: exactly `true` is true. */
  function ToBool(v: Value): (r: Result<bool, ConversionError>)
    ensures r.Success? <==> v.typ == BooleanValue
    ensures r.Success? ==> (r.value <==> v.value == "true")
    ensures r.Failure? ==> r.error == CannotConvertTo(v.typ, "bool")
  {
    if v.typ != BooleanValue then Failure(CannotConvertTo(v.typ, "bool"))
    else Success(v.value == "true")
  }

  /** Token kinds that carry a value. */
  predicate IsValueToken(t: TokenType) {
    t in {TokenString, TokenNumber, TokenIdentifier, TokenTrue, TokenFalse, TokenNil}
  }

  /**
   * Strings, numbers and identifiers keep their raw text, `true`/`false` become
   * booleans with their text, `nil` becomes the nil value, and anything else the
   * zero value.
   */
  function ValueFromToken(token: Token): (r: Value)
    ensures IsZero(r) <==> !IsValueToken(token.typ)
    ensures IsZero(r) ==> r.value == ""
    ensures IsNil(r) <==> token.typ == TokenNil
    ensures IsNil(r) ==> r.value == "nil"
    ensures r.typ == BooleanValue <==> token.typ in {TokenTrue, TokenFalse}
    ensures r.typ !in {ZeroValue, NilValue} ==> r.value == token.val
  {
    if token.typ == TokenString then Value(StringValue, token.val)
    else if token.typ == TokenNumber then Value(NumberValue, token.val)
    else if token.typ == TokenIdentifier then Value(IdentifierValue, token.val)
    else if token.typ == TokenFalse || token.typ == TokenTrue then Value(BooleanValue, token.val)
    else if token.typ == TokenNil then Value(NilValue, "nil")
    else Value(ZeroValue, "")
  }

  /** A number value converts to an int exactly when its text is a Go integer literal in the signed 64-bit range. */
  lemma ToIntMatchesGrammar(text: string)
    ensures var v := Value(NumberValue, text);
      var neg := |text| > 0 && text[0] == '-';
      var rest := if |text| > 0 && (text[0] == '+' || text[0] == '-') then text[1..] else text;
      (ToInt(v).Success? <==>
        IsIntLit(rest) && LiteralValue(rest) <= MaxUint64 &&
        (if neg then LiteralValue(rest) <= Int64Cutoff else LiteralValue(rest) < Int64Cutoff)) &&
      (ToInt(v).Success? ==> ToInt(v).value == (if neg then -1 else 1) * LiteralValue(rest))
  {
    ParseIntMatchesGrammar(text);
  }

  /** A number value converts to a uint exactly when its text is a Go integer literal below 2^64. */
  lemma ToUintMatchesGrammar(text: string)
    ensures var v := Value(NumberValue, text);
      (ToUint(v).Success? <==> IsIntLit(text) && LiteralValue(text) <= MaxUint64) &&
      (ToUint(v).Success? ==> ToUint(v).value == LiteralValue(text))
  {
    ParseUintMatchesGrammar(text);
  }

  /** A number written as `%d` prints it converts back to the same integer. */
  lemma ToIntRoundTrip(i: int)
    requires MinInt64 <= i < Int64Cutoff
    ensures ToInt(Value(NumberValue, IntToString(i))) == Success(i)
  {
    ParseIntRoundTrip(i);
  }

  lemma ToUintRoundTrip(n: nat)
    requires n <= MaxUint64
    ensures ToUint(Value(NumberValue, NatToString(n))) == Success(n)
  {
    ParseUintRoundTrip(n);
  }

  lemma NumberConversionExamples()
    ensures ToInt(Value(NumberValue, "0x23")) == Success(35)
    ensures ToUint(Value(NumberValue, "0o644")) == Success(420)
    ensures ToUint(Value(NumberValue, "0b01100101")) == Success(101)
  {
    HexExample();
    OctalExample();
    BinaryExample();
  }

  lemma SignedConversionExamples()
    ensures ToInt(Value(NumberValue, "-42")) == Success(-42)
    ensures ToUint(Value(NumberValue, "-42")).Failure?
    ensures ToInt(Value(NumberValue, "3.14")).Failure? && ToUint(Value(NumberValue, "3.14")).Failure?
  {
    DecimalExamples();
    SignRejectedByParseUint();
    FractionRejected();
  }

  lemma GuardExamples()
    ensures ToInt(Value(StringValue, "\"1\"")) == Failure(CannotConvert("cannot convert string to int"))
    ensures ToBool(Value(BooleanValue, "false")) == Success(false)
    ensures ValueTypeString(42) == "ValueType(42)"
  {
    assert ValueTypeString(StringValue) == "string";
    assert "cannot convert " + "string" + " to " + "int" == "cannot convert string to int";
    assert IntToString(42) == "42";
  }
}
