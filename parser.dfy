/**
 * The parser as parser.go writes it: an object whose methods move a one-token
 * lookahead over the token list and append events, each method proved to leave
 * the state, and return the result, that its function in ParseSpec describes.
 *
 * The token iterator is the list `tokens` and the count `cursor` of tokens
 * pulled from it; the events handed to `yield` are collected in `events`.
 */
module Parsers {
  import opened Wrappers
  import opened Tokens
  import opened Values
  import opened Classify
  import opened ParseSpec
  import LexSpec
  import Lexers

  lemma ToLogSnoc(ev: seq<ParserEvent>, e: ParserEvent)
    ensures ToLog(ev + [e]) == Snoc(ToLog(ev), e)
  {
    assert (ev + [e])[..|ev|] == ev;
  }

  class Parser {
    const config: ParseOptions
    const tokens: seq<Token>

    var cursor: nat
    var peeked: Option<Token>
    var current: Token
    var hasToken: bool
    var state: ParserState
    var events: seq<ParserEvent>

    /** The index of the first token not consumed: a peeked token is not consumed yet. */
    function Next(): int
      reads this
    {
      if peeked.Some? then cursor - 1 else cursor
    }

    /** A peeked token is the last one pulled, and a current token the one before the next. */
    ghost predicate Valid()
      reads this
    {
      cursor <= |tokens| &&
      (peeked.Some? ==> 0 < cursor && peeked.value == tokens[cursor - 1]) &&
      (hasToken ==> 0 < Next() && current == tokens[Next() - 1])
    }

    /** The parser as ParseSpec states it. */
    ghost function Snap(): PState
      reads this
      requires Valid()
    {
      PState(Source(tokens, config), Next(), hasToken, current, state, ToLog(events))
    }

    constructor(tokens: seq<Token>, config: ParseOptions)
      ensures Valid() && Snap() == Start(tokens, config)
    {
      this.tokens := tokens;
      this.config := config;
      cursor := 0;
      peeked := None;
      current := NoToken;
      hasToken := false;
      state := StartState;
      events := [];
    }

    /** The iterator's `next`: the next token not pulled yet, if any. */
    method Pull() returns (tok: Token, ok: bool)
      requires cursor <= |tokens|
      modifies this`cursor
      ensures ok <==> old(cursor) < |tokens|
      ensures ok ==> tok == tokens[old(cursor)] && cursor == old(cursor) + 1
      ensures !ok ==> cursor == old(cursor)
    {
      if cursor < |tokens| {
        tok, ok := tokens[cursor], true;
        cursor := cursor + 1;
      } else {
        tok, ok := NoToken, false;
      }
    }

    method Emit(e: ParserEvent)
      requires Valid()
      modifies this`events
      ensures Valid() && Snap() == ParseSpec.Emit(old(Snap()), e)
    {
      ToLogSnoc(events, e);
      events := events + [e];
    }

    method Errorf(msg: string) returns (ok: bool)
      requires Valid() && Nest(Snap().events).Some?
      modifies this`events
      ensures Valid() && Outcome(Snap(), ok) == ParseSpec.Errorf(old(Snap()), msg)
    {
      Emit(ErrorEvent(current.pos, msg));
      ok := false;
    }

    method Peek() returns (t: Option<Token>)
      requires Valid()
      modifies this`cursor, this`peeked
      ensures Valid() && Snap() == old(Snap()) && t == ParseSpec.Peek(old(Snap()))
    {
      if peeked.None? {
        var tok, ok := Pull();
        if ok {
          peeked := Some(tok);
        }
      }
      t := peeked;
    }

    method IsNext(typs: seq<TokenType>) returns (b: bool)
      requires Valid()
      modifies this`cursor, this`peeked
      ensures Valid() && Snap() == old(Snap()) && b == ParseSpec.IsNext(old(Snap()), typs)
    {
      var t := Peek();
      b := t.Some? && t.value.typ in typs;
    }

    method Advance() returns (ok: bool)
      requires Valid()
      modifies this`cursor, this`peeked, this`current, this`hasToken
      ensures Valid() && Outcome(Snap(), ok) == ParseSpec.Advance(old(Snap()))
    {
      if peeked.Some? {
        current := peeked.value;
        peeked := None;
        hasToken := true;
      } else {
        var tok, more := Pull();
        if more {
          hasToken := true;
          current := tok;
        } else {
          hasToken := false;
        }
      }
      ok := hasToken;
    }

    method IsToken(typ: TokenType) returns (ok: bool)
      requires Valid() && Nest(Snap().events).Some?
      modifies this`events
      ensures Valid() && Outcome(Snap(), ok) == ParseSpec.IsToken(old(Snap()), typ)
    {
      if !hasToken {
        ok := Errorf(UnexpectedEnd);
        return;
      }
      if current.typ != typ {
        ok := Errorf(Expected(typ, current.typ));
        return;
      }
      ok := true;
    }

    function ToValue(): Value
      reads this
    {
      ValueFromToken(current)
    }

    method UpdateState(newState: ParserState)
      requires Valid()
      modifies this`events, this`state
      ensures Valid() && Snap() == ParseSpec.UpdateState(old(Snap()), newState)
    {
      if state == StartState && newState == OrderedState {
        Emit(ListStartEvent);
      } else if state == StartState && newState == LabeledState {
        Emit(MapStartEvent);
      } else if state == OrderedState && newState == LabeledState {
        Emit(ListEndEvent);
        Emit(MapStartEvent);
      } else if newState == EofState {
        if state == OrderedState {
          Emit(ListEndEvent);
        } else if state == LabeledState {
          Emit(MapEndEvent);
        }
      }
      state := newState;
    }

    method IsValue() returns (ok: bool)
      requires Valid() && Nest(Snap().events).Some?
      modifies this`events
      ensures Valid() && Outcome(Snap(), ok) == ParseSpec.IsValue(old(Snap()))
    {
      var t := current.typ;
      if t in {TokenIdentifier, TokenNumber, TokenString, TokenTrue, TokenFalse, TokenNil} {
        ok := true;
      } else {
        ok := Errorf(NotAValue + TokenTypeString(t));
      }
    }

    method ParseBooleanPrefix() returns (ok: bool)
      requires Valid() && hasToken && Nest(Snap().events).Some?
      requires current.typ == TokenFieldPrefix
      modifies this
      ensures Valid() && Outcome(Snap(), ok) == BooleanPrefix(old(Snap()))
    {
      var prefix := current.val;
      ok := Advance();
      if !ok {
        return;
      }
      ok := IsToken(TokenIdentifier);
      if !ok {
        return;
      }
      Emit(MapKeyEvent(ToValue()));
      Emit(ValueEvent(Value(BooleanValue, if prefix == "^" then "true" else "false")));
      ok := Advance();
    }

    method ParseDictPair() returns (ok: bool)
      requires Valid() && hasToken && Nest(Snap().events).Some?
      modifies this
      ensures Valid() && Outcome(Snap(), ok) == DictPair(old(Snap()))
    {
      ok := IsValue();
      if !ok {
        return;
      }
      Emit(MapKeyEvent(ToValue()));
      ok := Advance();
      if !ok {
        return;
      }
      ok := IsToken(TokenPairSeparator);
      if !ok {
        return;
      }
      ok := Advance();
      if !ok {
        return;
      }
      ok := IsValue();
      if !ok {
        return;
      }
      Emit(ValueEvent(ToValue()));
      ok := Advance();
    }

    method ParseDictEntry() returns (ok: bool)
      requires Valid() && hasToken && Nest(Snap().events).Some?
      modifies this
      ensures Valid() && Outcome(Snap(), ok) == DictEntry(old(Snap()))
    {
      if current.typ == TokenFieldPrefix {
        ok := ParseBooleanPrefix();
      } else {
        ok := ParseDictPair();
      }
    }

    method ParseDictValue() returns (ok: bool)
      requires Valid() && hasToken && Nest(Snap().events).Some?
      modifies this
      ensures Valid() && Outcome(Snap(), ok) == DictValue(old(Snap()))
    {
      Emit(MapStartEvent);
      ok := ParseDictEntry();
      if !ok {
        return;
      }
      ghost var goal := DictLoop(Snap());
      while current.typ == TokenListSeparator
        invariant Valid() && hasToken && Nest(Snap().events).Some?
        invariant DictLoop(Snap()) == goal
        decreases |tokens| - Next()
      {
        ok := Advance();
        if !ok {
          return;
        }
        ok := ParseDictEntry();
        if !ok {
          return;
        }
      }
      Emit(MapEndEvent);
      ok := true;
    }

    method ParseListValue() returns (ok: bool)
      requires Valid() && hasToken && Nest(Snap().events).Some?
      modifies this
      ensures Valid() && Outcome(Snap(), ok) == ListValue(old(Snap()))
    {
      Emit(ListStartEvent);
      Emit(ValueEvent(ToValue()));
      var more := Advance();
      ghost var goal := ListLoop(Snap());
      while hasToken && current.typ == TokenListSeparator
        invariant Valid() && Nest(Snap().events).Some?
        invariant ListLoop(Snap()) == goal
        decreases |tokens| - Next()
      {
        ok := Advance();
        if !ok {
          return;
        }
        ok := IsValue();
        if !ok {
          return;
        }
        Emit(ValueEvent(ToValue()));
        more := Advance();
      }
      Emit(ListEndEvent);
      ok := true;
    }

    method ParseValueContent() returns (ok: bool)
      requires Valid() && hasToken && Nest(Snap().events).Some?
      modifies this
      ensures Valid() && Outcome(Snap(), ok) == ValueContent(old(Snap()))
    {
      if current.typ == TokenFieldPrefix {
        ok := ParseDictValue();
        return;
      }
      ok := IsValue();
      if !ok {
        return;
      }
      var pair := IsNext([TokenPairSeparator]);
      if pair {
        ok := ParseDictValue();
        return;
      }
      var list := IsNext([TokenListSeparator]);
      if list {
        ok := ParseListValue();
        return;
      }
      Emit(ValueEvent(ToValue()));
      var consumed := Advance();
      ok := true;
    }

    method ParseAssignment() returns (ok: bool)
      requires Valid() && hasToken && Nest(Snap().events).Some?
      requires ParseSpec.IsNext(Snap(), [TokenAssign])
      modifies this
      ensures Valid() && Outcome(Snap(), ok) == Assignment(old(Snap()))
    {
      Emit(MapKeyEvent(ToValue()));
      var consumed := Advance();
      var empty := IsNext([TokenFieldSeparator, TokenEOF]);
      if empty {
        consumed := Advance();
        Emit(ValueEvent(Value(ZeroValue, "")));
        return true;
      }
      ok := Advance();
      if !ok {
        return;
      }
      ok := ParseValueContent();
    }

    method ParseField() returns (ok: bool)
      requires Valid() && hasToken && state != EofState
      requires Nest(Snap().events) == Some(OpenOf(state))
      modifies this
      ensures Valid() && Outcome(Snap(), ok) == Field(old(Snap()))
    {
      if current.typ == TokenFieldPrefix {
        UpdateStateKeepsNesting(Snap(), LabeledState);
        UpdateState(LabeledState);
        ok := ParseBooleanPrefix();
        return;
      }
      if current.typ == TokenIdentifier {
        var assign := IsNext([TokenAssign]);
        if assign {
          UpdateStateKeepsNesting(Snap(), LabeledState);
          UpdateState(LabeledState);
          ok := ParseAssignment();
          return;
        }
      }
      // An identifier not followed by `=` falls through to the ordered values.
      if IsOrderedStart(current.typ) {
        if !config.allowOrdered || state > OrderedState {
          ok := Errorf(OrderedNotAllowed);
          return;
        }
        UpdateStateKeepsNesting(Snap(), OrderedState);
        UpdateState(OrderedState);
        if current.typ == TokenFieldSeparator {
          Emit(ValueEvent(Value(ZeroValue, "")));
          ok := true;
        } else {
          ok := ParseValueContent();
        }
        return;
      }
      ok := Errorf(NotAFieldStart + TokenTypeString(current.typ));
    }

    method ParseFieldList()
      requires Valid() && state != EofState
      requires Nest(Snap().events) == Some(OpenOf(state))
      modifies this
      ensures Valid() && Snap() == FieldList(old(Snap()))
    {
      ghost var goal := FieldList(Snap());
      while true
        invariant Valid() && state != EofState
        invariant Nest(Snap().events) == Some(OpenOf(state))
        invariant FieldList(Snap()) == goal
        decreases |tokens| - Next()
      {
        var more := Advance();
        if !more || current.typ == TokenEOF {
          break;
        }
        var ok := ParseField();
        if !ok {
          return;
        }
        // A `,` after the field is consumed by the next round's advance, like anything else there.
        if hasToken && current.typ == TokenFieldSeparator {
          continue;
        }
      }
      UpdateStateKeepsNesting(Snap(), EofState);
      UpdateState(EofState);
    }
  }

  /** The events a parse of `tokens` yields, with the first of `opts` or the defaults. */
  method ParseTokens(tokens: seq<Token>, opts: seq<ParseOptions>) returns (events: seq<ParserEvent>)
    ensures events == ParseSpec.ParseTokens(tokens, opts)
  {
    var opt := if |opts| > 0 then opts[0] else ParseDefaults();
    var p := new Parser(tokens, opt);
    p.ParseFieldList();
    events := p.events;
  }

  /** Lexes `input` and parses its tokens. */
  method Parse(input: seq<char>, letter: int -> bool, opts: seq<ParseOptions>) returns (events: seq<ParserEvent>)
    requires LetterClass(letter)
    ensures events == ParseSpec.ParseTokens(LexSpec.Lex(input, letter), opts)
  {
    var tokens := Lexers.Lex(input, letter);
    events := ParseTokens(tokens, opts);
  }
}
