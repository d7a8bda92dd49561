/**
 * What the parser does, stated without its mutable fields (parser.go): every
 * parser method as a function from the parser's state to the state it leaves
 * and the boolean it returns, and `ParseTokens`, the events produced for a
 * token list.
 *
 * The state keeps the index `next` of the first token not yet consumed in
 * place of the pulled iterator and its one-token lookahead slot: a peeked token
 * is one that has not been consumed yet, so peeking changes nothing here.
 */
module ParseSpec {
  import opened Wrappers
  import opened Positions
  import opened Tokens
  import opened Values

  /** The top-level section the parser is in; sections only move forward. */
  newtype ParserState = x: int | 0 <= x < 4

  const StartState: ParserState := 0
  const OrderedState: ParserState := 1
  const LabeledState: ParserState := 2
  const EofState: ParserState := 3

  datatype ParseOptions = ParseOptions(allowOrdered: bool)

  function ParseDefaults(): ParseOptions {
    ParseOptions(allowOrdered := true)
  }

  datatype ParserEvent =
    | ListStartEvent
    | ListEndEvent
    | MapStartEvent
    | MapEndEvent
    | MapKeyEvent(key: Value)
    | ValueEvent(value: Value)
    | ErrorEvent(pos: Position, msg: string)

  /** What an error event prints as. */
  function ErrorString(e: ParserEvent): (s: string)
    requires e.ErrorEvent?
    ensures s == "Error at " + PositionString(e.pos) + ": " + e.msg
  {
    "Error at " + PositionString(e.pos) + ": " + e.msg
  }

  /** Error texts are injective: equal texts come from the same position and the same message. */
  lemma ErrorStringInjective(e: ParserEvent, f: ParserEvent)
    requires e.ErrorEvent? && f.ErrorEvent?
    requires ErrorString(e) == ErrorString(f)
    ensures e == f
  {
    PositionStringHasNoColon(e.pos);
    PositionStringHasNoColon(f.pos);
    SplitAfterPrefix("Error at ", PositionString(e.pos), PositionString(f.pos), ": ", e.msg, f.msg);
    PositionStringInjective(e.pos, f.pos);
  }

  lemma ErrorStringExample()
    ensures ErrorString(ErrorEvent(Position(0, 0), "test error")) == "Error at Col 0 (Offset 0): test error"
  {
    StartPositionString();
  }

  /** The zero token a fresh parser holds as `current`. */
  const NoToken := Token(TokenError, Position(0, 0), "")

  /**
   * The events emitted so far, newest last: a list that grows at its end, read
   * as a sequence by `Events`.
   */
  datatype Log = Empty | Snoc(init: Log, last: ParserEvent)

  function Events(l: Log): seq<ParserEvent> {
    match l
    case Empty => []
    case Snoc(init, e) => Events(init) + [e]
  }

  /** The log of an event sequence; `Events` undoes it. */
  function ToLog(ev: seq<ParserEvent>): (l: Log)
    ensures Events(l) == ev
    decreases |ev|
  {
    if ev == [] then Empty else Snoc(ToLog(ev[..|ev| - 1]), ev[|ev| - 1])
  }

  /** What the parser reads: the token list and its options. */
  datatype Source = Source(tokens: seq<Token>, opts: ParseOptions)

  datatype PState = PState(
    src: Source,
    next: nat,
    hasToken: bool,
    current: Token,
    state: ParserState,
    events: Log)

  /** A parser result: the state left behind and whether the method returned true. */
  datatype Outcome = Outcome(st: PState, ok: bool)

  function Start(tokens: seq<Token>, opts: ParseOptions): PState {
    PState(Source(tokens, opts), 0, false, NoToken, StartState, Empty)
  }

  /** The cursor is within the input, and a current token is the last one consumed. */
  predicate Inv(ps: PState) {
    ps.next <= |ps.src.tokens| &&
    (ps.hasToken ==> 0 < ps.next && ps.current == ps.src.tokens[ps.next - 1])
  }

  // ---------------------------------------------------------------------------
  // Summaries of a log: its bracket nesting and its error count.

  datatype Bracket = ListOpen | MapOpen

  /** Brackets still open, innermost on top. */
  datatype Stack = Bottom | Open(below: Stack, top: Bracket)

  /** The open brackets after one more event, or None once a close does not match. */
  function Push(stack: Option<Stack>, e: ParserEvent): Option<Stack> {
    match stack
    case None => None
    case Some(s) =>
      match e
      case ListStartEvent => Some(Open(s, ListOpen))
      case MapStartEvent => Some(Open(s, MapOpen))
      case ListEndEvent => if s.Open? && s.top == ListOpen then Some(s.below) else None
      case MapEndEvent => if s.Open? && s.top == MapOpen then Some(s.below) else None
      case _ => Some(s)
  }

  /** The brackets left open by `ev`, or None when `ev` closes one it did not open. */
  function Nest(ev: Log): Option<Stack>
  {
    match ev
    case Empty => Some(Bottom)
    case Snoc(init, e) => Push(Nest(init), e)
  }

  /** Every bracket opened is closed, innermost first. */
  predicate Balanced(ev: Log) {
    Nest(ev) == Some(Bottom)
  }

  /** The number of error events in `ev`. */
  function Errors(ev: Log): nat
  {
    match ev
    case Empty => 0
    case Snoc(init, e) => Errors(init) + (if e.ErrorEvent? then 1 else 0)
  }

  /** The brackets still open in each section. */
  function OpenOf(state: ParserState): Stack {
    if state == OrderedState then Open(Bottom, ListOpen)
    else if state == LabeledState then Open(Bottom, MapOpen)
    else Bottom
  }

  /** Whether the token list ends as a lexer's does: with EOF or an Error token. */
  predicate LastIsEnd(tokens: seq<Token>) {
    |tokens| > 0 && tokens[|tokens| - 1].typ in {TokenEOF, TokenError}
  }

  /** `q` continues `ps`: the same input and options, a cursor that has not moved back. */
  predicate Follows(ps: PState, q: PState) {
    Inv(q) && q.src == ps.src && ps.next <= q.next
  }

  /** The last event is an error at the current token's position. */
  predicate ErrorLast(q: PState) {
    q.events.Snoc? && q.events.last.ErrorEvent? && q.events.last.pos == q.current.pos
  }

  /**
   * A parse that returned false has added exactly one error, as its last event;
   * only a token list that the lexer cannot produce (one that does not end with
   * EOF or Error) can make it stop without one.
   */
  predicate Failed(ps: PState, q: PState) {
    (Errors(q.events) == Errors(ps.events) + 1 && ErrorLast(q)) ||
    (!LastIsEnd(ps.src.tokens) && Errors(q.events) == Errors(ps.events))
  }

  /**
   * What a parse inside one field leaves: the same section; on success no error
   * and the same open brackets (what it opened it closed); on failure, nesting
   * still proper and the failure as `Failed` says.
   */
  predicate Sound(ps: PState, r: Outcome) {
    var q := r.st;
    Follows(ps, q) && q.state == ps.state && Nest(q.events).Some? &&
    (r.ok ==> Nest(q.events) == Nest(ps.events) && Errors(q.events) == Errors(ps.events)) &&
    (!r.ok ==> Failed(ps, q))
  }

  // ---------------------------------------------------------------------------
  // Token access (parser.go:104-171).

  function Emit(ps: PState, e: ParserEvent): (q: PState)
    ensures Nest(q.events) == Push(Nest(ps.events), e)
    ensures Errors(q.events) == Errors(ps.events) + (if e.ErrorEvent? then 1 else 0)
  {
    ps.(events := Snoc(ps.events, e))
  }

  /** Reports `msg` at the current token and returns false. */
  function Errorf(ps: PState, msg: string): (r: Outcome)
    requires Inv(ps) && Nest(ps.events).Some?
    ensures Sound(ps, r) && !r.ok && Errors(r.st.events) == Errors(ps.events) + 1
    ensures r.st.events == Snoc(ps.events, ErrorEvent(ps.current.pos, msg))
  {
    Outcome(Emit(ps, ErrorEvent(ps.current.pos, msg)), false)
  }

  /** The next token, if any, without consuming it. */
  function Peek(ps: PState): (t: Option<Token>)
    requires Inv(ps)
    ensures t.Some? <==> ps.next < |ps.src.tokens|
    ensures t.Some? ==> t.value == ps.src.tokens[ps.next]
  {
    if ps.next < |ps.src.tokens| then Some(ps.src.tokens[ps.next]) else None
  }

  function IsNext(ps: PState, typs: seq<TokenType>): (b: bool)
    requires Inv(ps)
    ensures b <==> ps.next < |ps.src.tokens| && ps.src.tokens[ps.next].typ in typs
  {
    var t := Peek(ps);
    t.Some? && t.value.typ in typs
  }

  /** Consumes the next token; at the end of the input only `hasToken` drops. */
  function Advance(ps: PState): (r: Outcome)
    requires Inv(ps)
    ensures Follows(ps, r.st) && r.st.state == ps.state && r.st.events == ps.events
    ensures r.ok == r.st.hasToken
    ensures r.ok <==> ps.next < |ps.src.tokens|
    ensures r.ok ==> r.st.next == ps.next + 1
  {
    if ps.next < |ps.src.tokens| then
      Outcome(ps.(next := ps.next + 1, hasToken := true, current := ps.src.tokens[ps.next]), true)
    else Outcome(ps.(hasToken := false), false)
  }

  const UnexpectedEnd := "unexpected end of input"

  /** The message for a token of kind `got` where one of kind `want` belongs. */
  function Expected(want: TokenType, got: TokenType): string {
    "expected " + TokenTypeString(want) + ", got " + TokenTypeString(got)
  }
  const NotAValue := "expected value, got "

  /** Whether the current token is of kind `typ`; if not, reports what was found. */
  function IsToken(ps: PState, typ: TokenType): (r: Outcome)
    requires Inv(ps) && Nest(ps.events).Some?
    ensures Sound(ps, r)
    ensures r.ok <==> ps.hasToken && ps.current.typ == typ
    ensures r.ok ==> r.st == ps
    ensures !ps.hasToken ==> r.st.events == Snoc(ps.events, ErrorEvent(ps.current.pos, UnexpectedEnd))
    ensures ps.hasToken && ps.current.typ != typ ==>
      r.st.events == Snoc(ps.events, ErrorEvent(ps.current.pos, Expected(typ, ps.current.typ)))
  {
    if !ps.hasToken then Errorf(ps, UnexpectedEnd)
    else if ps.current.typ != typ then
      Errorf(ps, Expected(typ, ps.current.typ))
    else Outcome(ps, true)
  }

  function ToValue(ps: PState): Value {
    ValueFromToken(ps.current)
  }

  /** Enters section `s`, opening and closing the brackets the sections call for. */
  function UpdateState(ps: PState, s: ParserState): (q: PState)
    ensures q.src == ps.src && q.next == ps.next
    ensures q.hasToken == ps.hasToken && q.current == ps.current && q.state == s
    ensures Errors(q.events) == Errors(ps.events)
  {
    var st := ps.state;
    if st == StartState && s == OrderedState then Emit(ps, ListStartEvent).(state := s)
    else if st == StartState && s == LabeledState then Emit(ps, MapStartEvent).(state := s)
    else if st == OrderedState && s == LabeledState then Emit(Emit(ps, ListEndEvent), MapStartEvent).(state := s)
    else if s == EofState then
      (if st == OrderedState then Emit(ps, ListEndEvent)
       else if st == LabeledState then Emit(ps, MapEndEvent)
       else ps).(state := s)
    else ps.(state := s)
  }

  /**
   * Moving forward keeps "exactly the current section's bracket is open": the
   * bracket of a section left is closed and that of the section entered opened.
   */
  lemma UpdateStateKeepsNesting(ps: PState, s: ParserState)
    requires Nest(ps.events) == Some(OpenOf(ps.state))
    requires ps.state <= s && ps.state != EofState
    ensures Nest(UpdateState(ps, s).events) == Some(OpenOf(s))
  {
  }

  /** Whether the current token is a value; if not, reports what was found. */
  function IsValue(ps: PState): (r: Outcome)
    requires Inv(ps) && Nest(ps.events).Some?
    ensures Sound(ps, r)
    ensures r.ok <==> IsValueToken(ps.current.typ)
    ensures r.ok ==> r.st == ps
    ensures !r.ok ==> r.st.events == Snoc(ps.events, ErrorEvent(ps.current.pos, NotAValue + TokenTypeString(ps.current.typ)))
  {
    var t := ps.current.typ;
    if t in {TokenIdentifier, TokenNumber, TokenString, TokenTrue, TokenFalse, TokenNil} then Outcome(ps, true)
    else Errorf(ps, NotAValue + TokenTypeString(t))
  }

  /** A token that is neither EOF nor Error is not the last of a lexer's list, so another follows it. */
  lemma MoreAfter(ps: PState)
    requires Inv(ps) && ps.hasToken
    ensures LastIsEnd(ps.src.tokens) && ps.current.typ !in {TokenEOF, TokenError} ==> ps.next < |ps.src.tokens|
  {
  }

  // ---------------------------------------------------------------------------
  // Field contents (parser.go:252-395).

  /** `^name` or `!name`: a key and the boolean the prefix stands for. */
  function BooleanPrefix(ps: PState): (r: Outcome)
    requires Inv(ps) && ps.hasToken && Nest(ps.events).Some?
    requires ps.current.typ == TokenFieldPrefix
    ensures Sound(ps, r)
    ensures r.ok ==> r.st.hasToken
  {
    var prefix := ps.current.val;
    MoreAfter(ps);
    var a := Advance(ps);
    if !a.ok then a
    else
      var c := IsToken(a.st, TokenIdentifier);
      if !c.ok then c
      else
        var k := Emit(c.st, MapKeyEvent(ToValue(c.st)));
        var v := Emit(k, ValueEvent(Value(BooleanValue, if prefix == "^" then "true" else "false")));
        MoreAfter(v);
        Advance(v)
  }

  /** `key:value`: both must be values. */
  function DictPair(ps: PState): (r: Outcome)
    requires Inv(ps) && ps.hasToken && Nest(ps.events).Some?
    ensures Sound(ps, r)
    ensures r.ok ==> r.st.hasToken
  {
    var v := IsValue(ps);
    if !v.ok then v
    else
      var k := Emit(v.st, MapKeyEvent(ToValue(v.st)));
      MoreAfter(k);
      var a := Advance(k);
      if !a.ok then a
      else
        var c := IsToken(a.st, TokenPairSeparator);
        if !c.ok then c
        else
          MoreAfter(c.st);
          var b := Advance(c.st);
          if !b.ok then b
          else
            var w := IsValue(b.st);
            if !w.ok then w
            else
              var e := Emit(w.st, ValueEvent(ToValue(w.st)));
              MoreAfter(e);
              Advance(e)
  }

  function DictEntry(ps: PState): (r: Outcome)
    requires Inv(ps) && ps.hasToken && Nest(ps.events).Some?
    ensures Sound(ps, r)
    ensures r.ok ==> r.st.hasToken
  {
    if ps.current.typ == TokenFieldPrefix then BooleanPrefix(ps) else DictPair(ps)
  }

  /** Further entries, each after a `;`. */
  function DictLoop(ps: PState): (r: Outcome)
    requires Inv(ps) && ps.hasToken && Nest(ps.events).Some?
    ensures Sound(ps, r)
    decreases |ps.src.tokens| - ps.next
  {
    if ps.current.typ != TokenListSeparator then Outcome(ps, true)
    else
      MoreAfter(ps);
      var a := Advance(ps);
      if !a.ok then a
      else
        var e := DictEntry(a.st);
        if !e.ok then e else DictLoop(e.st)
  }

  /** A map: its first entry starts at the current token. */
  function DictValue(ps: PState): (r: Outcome)
    requires Inv(ps) && ps.hasToken && Nest(ps.events).Some?
    ensures Sound(ps, r)
  {
    var m := Emit(ps, MapStartEvent);
    var e := DictEntry(m);
    if !e.ok then
      MapAround(ps, e);
      e
    else
      var l := DictLoop(e.st);
      SoundThen(m, e, l);
      MapAround(ps, l);
      if !l.ok then l else Outcome(Emit(l.st, MapEndEvent), true)
  }

  /** What is sound after opening a map is sound before it, once a success closes the map. */
  lemma MapAround(ps: PState, r: Outcome)
    requires Inv(ps) && Nest(ps.events).Some?
    requires Sound(Emit(ps, MapStartEvent), r)
    ensures !r.ok ==> Sound(ps, r)
    ensures r.ok ==> Sound(ps, Outcome(Emit(r.st, MapEndEvent), true))
  {
  }

  /** A sound success followed by a sound parse is sound from where the first began. */
  lemma SoundThen(ps: PState, a: Outcome, b: Outcome)
    requires Sound(ps, a) && a.ok && Sound(a.st, b)
    ensures Sound(ps, b)
  {
  }

  /** Further list items, each after a `;`. */
  function ListLoop(ps: PState): (r: Outcome)
    requires Inv(ps) && Nest(ps.events).Some?
    ensures Sound(ps, r)
    decreases |ps.src.tokens| - ps.next
  {
    if !(ps.hasToken && ps.current.typ == TokenListSeparator) then Outcome(ps, true)
    else
      MoreAfter(ps);
      var a := Advance(ps);
      if !a.ok then a
      else
        var v := IsValue(a.st);
        if !v.ok then v
        else ListLoop(Advance(Emit(v.st, ValueEvent(ToValue(v.st)))).st)
  }

  /** A list: its first item is the current token. */
  function ListValue(ps: PState): (r: Outcome)
    requires Inv(ps) && ps.hasToken && Nest(ps.events).Some?
    ensures Sound(ps, r)
  {
    var s := Emit(Emit(ps, ListStartEvent), ValueEvent(ToValue(ps)));
    var l := ListLoop(Advance(s).st);
    if !l.ok then l else Outcome(Emit(l.st, ListEndEvent), true)
  }

  /** A right-hand side: a map after a prefix or before `:`, a list before `;`, else one value. */
  function ValueContent(ps: PState): (r: Outcome)
    requires Inv(ps) && ps.hasToken && Nest(ps.events).Some?
    ensures Sound(ps, r)
  {
    if ps.current.typ == TokenFieldPrefix then DictValue(ps)
    else
      var v := IsValue(ps);
      if !v.ok then v
      else if IsNext(ps, [TokenPairSeparator]) then DictValue(ps)
      else if IsNext(ps, [TokenListSeparator]) then ListValue(ps)
      else Outcome(Advance(Emit(ps, ValueEvent(ToValue(ps)))).st, true)
  }

  /** `name=value`, where the current token is the name and the next one is `=`. */
  function Assignment(ps: PState): (r: Outcome)
    requires Inv(ps) && ps.hasToken && Nest(ps.events).Some?
    requires IsNext(ps, [TokenAssign])
    ensures Sound(ps, r)
  {
    var k := Emit(ps, MapKeyEvent(ToValue(ps)));
    var eq := Advance(k).st;
    if IsNext(eq, [TokenFieldSeparator, TokenEOF]) then
      Outcome(Emit(Advance(eq).st, ValueEvent(Value(ZeroValue, ""))), true)
    else
      MoreAfter(eq);
      var a := Advance(eq);
      if !a.ok then a else ValueContent(a.st)
  }

  const OrderedNotAllowed := "ordered value not allowed here"
  const NotAFieldStart := "expected field prefix, identifier, or value, got "

  /** The field kinds that can stand as an ordered value. */
  predicate IsOrderedStart(t: TokenType) {
    t in {TokenIdentifier, TokenFieldSeparator, TokenString, TokenNumber, TokenTrue, TokenFalse, TokenNil}
  }

  /**
   * One field, entering the section it belongs to. Sections only move forward,
   * the bracket of the section the parser ends in is the one open, and a
   * failure is as `Failed` says.
   */
  function Field(ps: PState): (r: Outcome)
    requires Inv(ps) && ps.hasToken && ps.state != EofState
    requires Nest(ps.events) == Some(OpenOf(ps.state))
    ensures Follows(ps, r.st) && ps.state <= r.st.state && r.st.state != EofState
    ensures Nest(r.st.events).Some?
    ensures r.ok ==> Nest(r.st.events) == Some(OpenOf(r.st.state)) && Errors(r.st.events) == Errors(ps.events)
    ensures !r.ok ==> Failed(ps, r.st)
  {
    var t := ps.current.typ;
    if t == TokenFieldPrefix then
      var l := UpdateState(ps, LabeledState);
      UpdateStateKeepsNesting(ps, LabeledState);
      Entered(ps, LabeledState, BooleanPrefix(l));
      BooleanPrefix(l)
    else if t == TokenIdentifier && IsNext(ps, [TokenAssign]) then
      var l := UpdateState(ps, LabeledState);
      UpdateStateKeepsNesting(ps, LabeledState);
      Entered(ps, LabeledState, Assignment(l));
      Assignment(l)
    else if IsOrderedStart(t) then
      if !ps.src.opts.allowOrdered || ps.state > OrderedState then Errorf(ps, OrderedNotAllowed)
      else
        var o := UpdateState(ps, OrderedState);
        UpdateStateKeepsNesting(ps, OrderedState);
        if o.current.typ == TokenFieldSeparator then Outcome(Emit(o, ValueEvent(Value(ZeroValue, ""))), true)
        else
          Entered(ps, OrderedState, ValueContent(o));
          ValueContent(o)
    else Errorf(ps, NotAFieldStart + TokenTypeString(t))
  }

  /** A sound parse after entering section `s` is what `Field` promises. */
  lemma Entered(ps: PState, s: ParserState, r: Outcome)
    requires Inv(ps) && ps.state != EofState && Nest(ps.events) == Some(OpenOf(ps.state))
    requires ps.state <= s && s != EofState
    requires Sound(UpdateState(ps, s), r)
    ensures Follows(ps, r.st) && ps.state <= r.st.state && r.st.state != EofState
    ensures Nest(r.st.events).Some?
    ensures r.ok ==> Nest(r.st.events) == Some(OpenOf(r.st.state)) && Errors(r.st.events) == Errors(ps.events)
    ensures !r.ok ==> Failed(ps, r.st)
  {
    UpdateStateKeepsNesting(ps, s);
  }

  /**
   * The top-level loop: fields until the input or an EOF token ends it, then the
   * EOF section. It ends in that section with no new error and every bracket
   * closed, or elsewhere, failed as `Failed` says.
   */
  function FieldList(ps: PState): (q: PState)
    requires Inv(ps) && ps.state != EofState
    requires Nest(ps.events) == Some(OpenOf(ps.state))
    ensures Follows(ps, q) && ps.state <= q.state
    ensures Nest(q.events).Some?
    ensures q.state == EofState ==> Balanced(q.events) && Errors(q.events) == Errors(ps.events)
    ensures q.state != EofState ==> Failed(ps, q)
    decreases |ps.src.tokens| - ps.next
  {
    var a := Advance(ps);
    if !a.ok || a.st.current.typ == TokenEOF then
      UpdateStateKeepsNesting(a.st, EofState);
      UpdateState(a.st, EofState)
    else
      var f := Field(a.st);
      if !f.ok then f.st else FieldList(f.st)
  }

  /** The options in force: the first given, else the defaults. */
  function Options(opts: seq<ParseOptions>): ParseOptions {
    if |opts| > 0 then opts[0] else ParseDefaults()
  }

  /** The parser's state once the field list is done. */
  function Finish(tokens: seq<Token>, opt: ParseOptions): PState {
    FieldList(Start(tokens, opt))
  }

  /** The events produced for a token list. */
  function ParseTokens(tokens: seq<Token>, opts: seq<ParseOptions>): seq<ParserEvent> {
    Events(Finish(tokens, Options(opts)).events)
  }

  // ---------------------------------------------------------------------------
  // What a whole parse produces.

  /** No event of `ev` is an error. */
  predicate NoErrors(ev: seq<ParserEvent>) {
    forall i :: 0 <= i < |ev| ==> !ev[i].ErrorEvent?
  }

  /** A log and its event sequence determine each other. */
  lemma {:induction false} LogRoundTrip(l: Log)
    ensures ToLog(Events(l)) == l
  {
    match l
    case Empty =>
    case Snoc(init, e) =>
      LogRoundTrip(init);
      var ev := Events(l);
      assert ev[..|ev| - 1] == Events(init);
  }

  /** The error count of a log is zero exactly when its events hold no error. */
  lemma {:induction false} ErrorsCount(l: Log)
    ensures Errors(l) == 0 <==> NoErrors(Events(l))
  {
    match l
    case Empty =>
    case Snoc(init, e) =>
      ErrorsCount(init);
      var ev := Events(l);
      assert forall i :: 0 <= i < |ev| - 1 ==> ev[i] == Events(init)[i];
      assert ev[|ev| - 1] == e;
  }

  /**
   * A parse never closes a bracket it did not open, and emits at most one
   * error, as its last event. On a token list that ends with EOF or Error, as
   * the lexer's do, a parse without an error has closed every bracket.
   */
  lemma ParseTokensOutcome(tokens: seq<Token>, opts: seq<ParseOptions>)
    ensures var ev := ParseTokens(tokens, opts);
      Nest(ToLog(ev)).Some? &&
      (NoErrors(ev) || (|ev| > 0 && ev[|ev| - 1].ErrorEvent? && NoErrors(ev[..|ev| - 1]))) &&
      (LastIsEnd(tokens) && NoErrors(ev) ==> Balanced(ToLog(ev)))
  {
    var q := Finish(tokens, Options(opts));
    LogRoundTrip(q.events);
    ErrorsCount(q.events);
    if q.events.Snoc? {
      ErrorsCount(q.events.init);
      assert Events(q.events)[..|Events(q.events)| - 1] == Events(q.events.init);
    }
  }

  /** A token list that starts with EOF, as blank input lexes, yields no events. */
  lemma LeadingEofYieldsNothing(tokens: seq<Token>, opts: seq<ParseOptions>)
    requires tokens == [] || tokens[0].typ == TokenEOF
    ensures ParseTokens(tokens, opts) == []
  {
  }

  // ---------------------------------------------------------------------------
  // The events of single constructs.

  /**
   * Section changes: entering the ordered section opens a list, entering the
   * labeled one opens a map (closing the list first when leaving the ordered
   * section), and the EOF section closes whatever is open.
   */
  lemma UpdateStateEvents(ps: PState, s: ParserState)
    ensures var ev, q := Events(ps.events), Events(UpdateState(ps, s).events);
      (ps.state == StartState && s == OrderedState ==> q == ev + [ListStartEvent]) &&
      (ps.state == StartState && s == LabeledState ==> q == ev + [MapStartEvent]) &&
      (ps.state == OrderedState && s == LabeledState ==> q == ev + [ListEndEvent, MapStartEvent]) &&
      (ps.state == OrderedState && s == EofState ==> q == ev + [ListEndEvent]) &&
      (ps.state == LabeledState && s == EofState ==> q == ev + [MapEndEvent]) &&
      (ps.state == s || (ps.state == StartState && s == EofState) ==> q == ev)
  {
  }

  /** `^name` adds the key `name` and the boolean true, `!name` the key and false. */
  lemma BooleanPrefixEvents(ps: PState)
    requires Inv(ps) && ps.hasToken && Nest(ps.events).Some? && ps.current.typ == TokenFieldPrefix
    requires LastIsEnd(ps.src.tokens)
    requires ps.next < |ps.src.tokens| && ps.src.tokens[ps.next].typ == TokenIdentifier
    ensures var r := BooleanPrefix(ps);
      r.ok && Events(r.st.events) == Events(ps.events) +
        [MapKeyEvent(Value(IdentifierValue, ps.src.tokens[ps.next].val)),
         ValueEvent(Value(BooleanValue, if ps.current.val == "^" then "true" else "false"))]
  {
    var a := Advance(ps);
    assert a.ok && a.st.current == ps.src.tokens[ps.next];
    MoreAfter(a.st);
    var k := Emit(a.st, MapKeyEvent(ToValue(a.st)));
    var v := Emit(k, ValueEvent(Value(BooleanValue, if ps.current.val == "^" then "true" else "false")));
    assert BooleanPrefix(ps) == Advance(v);
  }

  /** Anything but an identifier after the prefix is reported at that token. */
  lemma BooleanPrefixWithoutName(ps: PState)
    requires Inv(ps) && ps.hasToken && Nest(ps.events).Some? && ps.current.typ == TokenFieldPrefix
    requires ps.next < |ps.src.tokens| && ps.src.tokens[ps.next].typ != TokenIdentifier
    ensures var r, t := BooleanPrefix(ps), ps.src.tokens[ps.next];
      !r.ok && r.st.events == Snoc(ps.events, ErrorEvent(t.pos, "expected Identifier, got " + TokenTypeString(t.typ)))
  {
    var a := Advance(ps);
    assert a.ok && a.st.current == ps.src.tokens[ps.next];
    assert BooleanPrefix(ps) == IsToken(a.st, TokenIdentifier);
    assert "expected " + TokenTypeString(TokenIdentifier) + ", got " == "expected Identifier, got ";
  }

  /** `name=` followed by `,` or the end adds the key and the zero value. */
  lemma AssignmentWithoutValue(ps: PState)
    requires Inv(ps) && ps.hasToken && Nest(ps.events).Some? && IsNext(ps, [TokenAssign])
    requires ps.next + 1 < |ps.src.tokens| && ps.src.tokens[ps.next + 1].typ in {TokenFieldSeparator, TokenEOF}
    ensures var r := Assignment(ps);
      r.ok && Events(r.st.events) == Events(ps.events) + [MapKeyEvent(ValueFromToken(ps.current)), ValueEvent(Value(ZeroValue, ""))]
  {
  }

  /**
   * A value standing alone, not followed by `:` or `;`, adds just that value
   * and moves past it.
   */
  lemma ScalarValueEvents(ps: PState)
    requires Inv(ps) && ps.hasToken && Nest(ps.events).Some? && IsValueToken(ps.current.typ)
    requires !IsNext(ps, [TokenPairSeparator]) && !IsNext(ps, [TokenListSeparator])
    ensures var r := ValueContent(ps);
      r.ok && Events(r.st.events) == Events(ps.events) + [ValueEvent(ValueFromToken(ps.current))]
  {
  }

  /** A bare value or empty segment is refused when ordered values are off or the labeled section has begun. */
  lemma OrderedValueRefused(ps: PState)
    requires Inv(ps) && ps.hasToken && ps.state != EofState && Nest(ps.events) == Some(OpenOf(ps.state))
    requires IsOrderedStart(ps.current.typ) && !(ps.current.typ == TokenIdentifier && IsNext(ps, [TokenAssign]))
    requires !ps.src.opts.allowOrdered || ps.state == LabeledState
    ensures var r := Field(ps);
      !r.ok && r.st.events == Snoc(ps.events, ErrorEvent(ps.current.pos, OrderedNotAllowed))
  {
  }

  /** The tokens of `john, age=30`. */
  const JohnAge := [Token(TokenIdentifier, Position(0, 1), "john"), Token(TokenFieldSeparator, Position(4, 5), ","),
                    Token(TokenIdentifier, Position(6, 7), "age"), Token(TokenAssign, Position(9, 10), "="),
                    Token(TokenNumber, Position(10, 11), "30"), Token(TokenEOF, Position(12, 13), "")]

  /** The log after its first field, and after its second. */
  const JohnLog := Snoc(Snoc(Empty, ListStartEvent), ValueEvent(Value(IdentifierValue, "john")))
  const JohnAgeLog := Snoc(Snoc(Snoc(Snoc(JohnLog, ListEndEvent), MapStartEvent), MapKeyEvent(Value(IdentifierValue, "age"))),
                           ValueEvent(Value(NumberValue, "30")))

  /** `john, age=30`: the ordered value in a list, then the labeled field in a map. */
  lemma OrderedThenLabeledExample()
    ensures ParseTokens(JohnAge, []) ==
      [ListStartEvent, ValueEvent(Value(IdentifierValue, "john")), ListEndEvent,
       MapStartEvent, MapKeyEvent(Value(IdentifierValue, "age")), ValueEvent(Value(NumberValue, "30")), MapEndEvent]
  {
    var src := Source(JohnAge, ParseDefaults());
    OrderedField();
    LabeledField();
    var f := PState(src, 2, true, JohnAge[1], OrderedState, JohnLog);
    var h := PState(src, 6, true, JohnAge[5], LabeledState, JohnAgeLog);
    assert FieldList(h).events == Snoc(JohnAgeLog, MapEndEvent);
    assert FieldList(f) == FieldList(h);
    assert Finish(JohnAge, Options([])) == FieldList(f);
    JohnAgeEvents();
  }

  lemma JohnAgeEvents()
    ensures Events(Snoc(JohnAgeLog, MapEndEvent)) ==
      [ListStartEvent, ValueEvent(Value(IdentifierValue, "john")), ListEndEvent,
       MapStartEvent, MapKeyEvent(Value(IdentifierValue, "age")), ValueEvent(Value(NumberValue, "30")), MapEndEvent]
  {
  }

  lemma OrderedField()
    ensures Field(PState(Source(JohnAge, ParseDefaults()), 1, true, JohnAge[0], StartState, Empty)) ==
      Outcome(PState(Source(JohnAge, ParseDefaults()), 2, true, JohnAge[1], OrderedState, JohnLog), true)
  {
  }

  lemma LabeledField()
    ensures Field(PState(Source(JohnAge, ParseDefaults()), 3, true, JohnAge[2], OrderedState, JohnLog)) ==
      Outcome(PState(Source(JohnAge, ParseDefaults()), 6, true, JohnAge[5], LabeledState, JohnAgeLog), true)
  {
  }
}
