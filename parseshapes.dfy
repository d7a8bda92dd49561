/**
 * The events of the compound right-hand sides (parser.go:288-395): which
 * token after the first value selects a list or a map, what a well-formed
 * list or map adds, and the error a malformed one stops with. Each is
 * stated for every token list of the given shape.
 */
module ParseShapes {
  import opened Wrappers
  import opened Positions
  import opened Tokens
  import opened Values
  import opened LexSpec
  import opened ParseSpec

  /** The log `l` with the events `ev` added after it, oldest first. */
  function Append(l: Log, ev: seq<ParserEvent>): Log
    decreases |ev|
  {
    if ev == [] then l else Append(Snoc(l, ev[0]), ev[1..])
  }

  /** The events of an extended log are the old ones followed by the new. */
  lemma {:induction false} EventsAppend(l: Log, ev: seq<ParserEvent>)
    ensures Events(Append(l, ev)) == Events(l) + ev
    decreases |ev|
  {
    if ev != [] {
      EventsAppend(Snoc(l, ev[0]), ev[1..]);
      assert Events(l) + [ev[0]] + ev[1..] == Events(l) + ev;
    }
  }

  lemma AppendCons(l: Log, x: ParserEvent, ev: seq<ParserEvent>)
    ensures Append(Snoc(l, x), ev) == Append(l, [x] + ev)
  {
    assert ([x] + ev)[1..] == ev;
  }

  lemma {:induction false} AppendAppend(l: Log, a: seq<ParserEvent>, b: seq<ParserEvent>)
    ensures Append(Append(l, a), b) == Append(l, a + b)
    decreases |a|
  {
    if a != [] {
      AppendAppend(Snoc(l, a[0]), a[1..], b);
      assert (a + b)[0] == a[0] && (a + b)[1..] == a[1..] + b;
    } else {
      assert a + b == b;
    }
  }

  lemma AppendTwo(l: Log, x: ParserEvent, y: ParserEvent)
    ensures Append(l, [x, y]) == Snoc(Snoc(l, x), y)
  {
    assert [x, y][1..] == [y] && [y][1..] == [];
    assert Append(l, [x, y]) == Append(Snoc(l, x), [y]);
    assert Append(Snoc(l, x), [y]) == Append(Snoc(Snoc(l, x), y), []);
  }

  // ---------------------------------------------------------------------------
  // Which construct the first value starts (parser.go:288-313).

  /** A value followed by `;` starts a list. */
  lemma ValueContentIsList(ps: PState)
    requires Inv(ps) && ps.hasToken && Nest(ps.events).Some?
    requires IsValueToken(ps.current.typ) && IsNext(ps, [TokenListSeparator])
    ensures ValueContent(ps) == ListValue(ps)
  {
  }

  /** A `^`/`!` prefix, or a value followed by `:`, starts a map. */
  lemma ValueContentIsMap(ps: PState)
    requires Inv(ps) && ps.hasToken && Nest(ps.events).Some?
    requires ps.current.typ == TokenFieldPrefix || (IsValueToken(ps.current.typ) && IsNext(ps, [TokenPairSeparator]))
    ensures ValueContent(ps) == DictValue(ps)
  {
  }

  /** Anything else that is not a value is reported at the current token. */
  lemma ValueContentNotAValue(ps: PState)
    requires Inv(ps) && ps.hasToken && Nest(ps.events).Some?
    requires ps.current.typ != TokenFieldPrefix && !IsValueToken(ps.current.typ)
    ensures var r := ValueContent(ps);
      !r.ok && r.st.events == Snoc(ps.events, ErrorEvent(ps.current.pos, NotAValue + TokenTypeString(ps.current.typ)))
  {
  }

  lemma NotAValueErrorText()
    ensures NotAValue + TokenTypeString(TokenError) == "expected value, got Error"
  {
  }

  /** After `name=` and a token other than `,` and the end: the key, and the value is parsed from that token. */
  lemma AssignmentValueAt(ps: PState) returns (v: PState)
    requires Inv(ps) && ps.hasToken && Nest(ps.events).Some? && IsNext(ps, [TokenAssign])
    requires ps.next + 1 < |ps.src.tokens| && ps.src.tokens[ps.next + 1].typ !in {TokenFieldSeparator, TokenEOF}
    ensures Inv(v) && v.hasToken && Nest(v.events).Some? && v.src == ps.src && v.next == ps.next + 2
    ensures v.events == Snoc(ps.events, MapKeyEvent(ValueFromToken(ps.current))) && Assignment(ps) == ValueContent(v)
  {
    var eq := Advance(Emit(ps, MapKeyEvent(ToValue(ps)))).st;
    v := Advance(eq).st;
  }

  /** A token that starts no value where the value of `name=` belongs: the key, then the error at that token. */
  lemma AssignmentNotAValue(ps: PState)
    requires Inv(ps) && ps.hasToken && Nest(ps.events).Some? && IsNext(ps, [TokenAssign])
    requires ps.next + 1 < |ps.src.tokens|
    requires var t := ps.src.tokens[ps.next + 1];
      t.typ !in {TokenFieldSeparator, TokenEOF, TokenFieldPrefix} && !IsValueToken(t.typ)
    ensures var r, t := Assignment(ps), ps.src.tokens[ps.next + 1];
      !r.ok && r.st.events == Snoc(Snoc(ps.events, MapKeyEvent(ValueFromToken(ps.current))), ErrorEvent(t.pos, NotAValue + TokenTypeString(t.typ)))
  {
    var v := AssignmentValueAt(ps);
    ValueContentNotAValue(v);
  }

  /** An Error token where the value of `name=` belongs is reported as one: `expected value, got Error`. */
  lemma AssignmentErrorToken(ps: PState)
    requires Inv(ps) && ps.hasToken && Nest(ps.events).Some? && IsNext(ps, [TokenAssign])
    requires ps.next + 1 < |ps.src.tokens| && ps.src.tokens[ps.next + 1].typ == TokenError
    ensures var r, t := Assignment(ps), ps.src.tokens[ps.next + 1];
      !r.ok && r.st.events == Snoc(Snoc(ps.events, MapKeyEvent(ValueFromToken(ps.current))), ErrorEvent(t.pos, "expected value, got Error"))
  {
    AssignmentNotAValue(ps);
    NotAValueErrorText();
  }

  // ---------------------------------------------------------------------------
  // Lists (parser.go:315-337).

  /** `n` further items from index `c` on: `;` and a value, `n` times, then some token at `c + 2 * n`. */
  predicate MoreItems(tokens: seq<Token>, c: nat, n: nat)
    decreases n
  {
    c + 2 * n < |tokens| &&
    (n > 0 ==> tokens[c].typ == TokenListSeparator && IsValueToken(tokens[c + 1].typ) && MoreItems(tokens, c + 2, n - 1))
  }

  /** The value events of those items. */
  function ItemEvents(tokens: seq<Token>, c: nat, n: nat): seq<ParserEvent>
    requires c + 2 * n < |tokens|
    decreases n
  {
    if n == 0 then [] else [ValueEvent(ValueFromToken(tokens[c + 1]))] + ItemEvents(tokens, c + 2, n - 1)
  }

  /** One value event per item, the `k`-th for the value at `c + 2 * k + 1`. */
  lemma {:induction false} ItemEventsAt(tokens: seq<Token>, c: nat, n: nat)
    requires c + 2 * n < |tokens|
    ensures var ev := ItemEvents(tokens, c, n);
      |ev| == n && forall k :: 0 <= k < n ==> ev[k] == ValueEvent(ValueFromToken(tokens[c + 2 * k + 1]))
    decreases n
  {
    if n > 0 {
      ItemEventsAt(tokens, c + 2, n - 1);
      var ev, rest := ItemEvents(tokens, c, n), ItemEvents(tokens, c + 2, n - 1);
      forall k | 0 < k < n ensures ev[k] == ValueEvent(ValueFromToken(tokens[c + 2 * k + 1])) {
        assert ev[k] == rest[k - 1];
      }
    }
  }

  /** Further items after the first: the rest, and what they add. */
  lemma MoreItemsStep(tokens: seq<Token>, c: nat, n: nat)
    requires MoreItems(tokens, c, n) && n > 0
    ensures MoreItems(tokens, c + 2, n - 1) && tokens[c].typ == TokenListSeparator && IsValueToken(tokens[c + 1].typ)
    ensures ItemEvents(tokens, c, n) == [ValueEvent(ValueFromToken(tokens[c + 1]))] + ItemEvents(tokens, c + 2, n - 1)
  {
  }

  /** One item: the loop on a `;` before a value adds that value and goes on from the state `q` after it. */
  lemma ListLoopStep(ps: PState) returns (q: PState)
    requires Inv(ps) && ps.hasToken && Nest(ps.events).Some?
    requires ps.current.typ == TokenListSeparator && ps.next + 1 < |ps.src.tokens| && IsValueToken(ps.src.tokens[ps.next].typ)
    ensures Inv(q) && q.hasToken && Nest(q.events).Some? && q.src == ps.src && q.next == ps.next + 2
    ensures q.events == Snoc(ps.events, ValueEvent(ValueFromToken(ps.src.tokens[ps.next]))) && ListLoop(ps) == ListLoop(q)
  {
    q := Advance(Emit(Advance(ps).st, ValueEvent(ValueFromToken(ps.src.tokens[ps.next])))).st;
  }

  /** The item loop at a token other than `;` stops there and succeeds. */
  lemma ListLoopEnd(ps: PState)
    requires Inv(ps) && ps.hasToken && Nest(ps.events).Some? && ps.current.typ != TokenListSeparator
    ensures ListLoop(ps) == Outcome(ps, true)
  {
  }

  /** The item loop, standing on the `;` at `c`, takes `n` well-formed items and succeeds at a token after them that is not `;`. */
  lemma {:induction false} ListLoopItems(ps: PState, n: nat)
    requires Inv(ps) && ps.hasToken && Nest(ps.events).Some?
    requires MoreItems(ps.src.tokens, ps.next - 1, n)
    requires ps.src.tokens[ps.next - 1 + 2 * n].typ != TokenListSeparator
    ensures var r := ListLoop(ps);
      r.ok && r.st.next == ps.next + 2 * n && r.st.events == Append(ps.events, ItemEvents(ps.src.tokens, ps.next - 1, n))
    decreases n
  {
    if n == 0 {
      ListLoopEnd(ps);
    } else {
      MoreItemsStep(ps.src.tokens, ps.next - 1, n);
      var q := ListLoopStep(ps);
      ListLoopItems(q, n - 1);
      AppendCons(ps.events, ValueEvent(ValueFromToken(ps.src.tokens[ps.next])), ItemEvents(ps.src.tokens, ps.next + 1, n - 1));
    }
  }

  /** The item loop on a `;` before a non-value: the error at that token. */
  lemma ListLoopBadFirstItem(ps: PState)
    requires Inv(ps) && ps.hasToken && Nest(ps.events).Some?
    requires ps.current.typ == TokenListSeparator && ps.next < |ps.src.tokens| && !IsValueToken(ps.src.tokens[ps.next].typ)
    ensures var r, t := ListLoop(ps), ps.src.tokens[ps.next];
      !r.ok && r.st.events == Snoc(ps.events, ErrorEvent(t.pos, NotAValue + TokenTypeString(t.typ)))
  {
    assert ListLoop(ps) == IsValue(Advance(ps).st);
  }

  /** After `n` well-formed items, a `;` and then a non-value: the error at that token. */
  lemma {:induction false} ListLoopBadItem(ps: PState, n: nat)
    requires Inv(ps) && ps.hasToken && Nest(ps.events).Some?
    requires MoreItems(ps.src.tokens, ps.next - 1, n)
    requires var tokens, e := ps.src.tokens, ps.next - 1 + 2 * n;
      tokens[e].typ == TokenListSeparator && e + 1 < |tokens| && !IsValueToken(tokens[e + 1].typ)
    ensures var r, t := ListLoop(ps), ps.src.tokens[ps.next + 2 * n];
      !r.ok && r.st.events == Snoc(Append(ps.events, ItemEvents(ps.src.tokens, ps.next - 1, n)), ErrorEvent(t.pos, NotAValue + TokenTypeString(t.typ)))
    decreases n
  {
    if n == 0 {
      ListLoopBadFirstItem(ps);
    } else {
      MoreItemsStep(ps.src.tokens, ps.next - 1, n);
      var q := ListLoopStep(ps);
      ListLoopBadItem(q, n - 1);
      AppendCons(ps.events, ValueEvent(ValueFromToken(ps.src.tokens[ps.next])), ItemEvents(ps.src.tokens, ps.next + 1, n - 1));
    }
  }

  /**
   * `v0 ; v1 ; ... ; vn` followed by a token other than `;`: the list of those
   * values, and the parser stands on that token.
   */
  lemma ListValueEvents(ps: PState, n: nat)
    requires Inv(ps) && ps.hasToken && Nest(ps.events).Some?
    requires MoreItems(ps.src.tokens, ps.next, n)
    requires ps.src.tokens[ps.next + 2 * n].typ != TokenListSeparator
    ensures var r := ListValue(ps);
      r.ok && r.st.next == ps.next + 2 * n + 1 &&
      Events(r.st.events) == Events(ps.events) + ([ListStartEvent, ValueEvent(ValueFromToken(ps.current))] +
        ItemEvents(ps.src.tokens, ps.next, n) + [ListEndEvent])
  {
    var first := [ListStartEvent, ValueEvent(ToValue(ps))];
    var items := ItemEvents(ps.src.tokens, ps.next, n);
    var s := Emit(Emit(ps, first[0]), first[1]);
    ListLoopItems(Advance(s).st, n);
    AppendTwo(ps.events, first[0], first[1]);
    AppendAppend(ps.events, first, items);
    AppendAppend(ps.events, first + items, [ListEndEvent]);
    EventsAppend(ps.events, first + items + [ListEndEvent]);
  }

  /** A `;` followed by anything but a value stops the list with an error at that token. */
  lemma ListValueBadItem(ps: PState, n: nat)
    requires Inv(ps) && ps.hasToken && Nest(ps.events).Some?
    requires MoreItems(ps.src.tokens, ps.next, n)
    requires var e := ps.next + 2 * n;
      ps.src.tokens[e].typ == TokenListSeparator && e + 1 < |ps.src.tokens| && !IsValueToken(ps.src.tokens[e + 1].typ)
    ensures var r, t := ListValue(ps), ps.src.tokens[ps.next + 2 * n + 1];
      !r.ok && Events(r.st.events) == Events(ps.events) + ([ListStartEvent, ValueEvent(ValueFromToken(ps.current))] +
        ItemEvents(ps.src.tokens, ps.next, n) + [ErrorEvent(t.pos, NotAValue + TokenTypeString(t.typ))])
  {
    var t := ps.src.tokens[ps.next + 2 * n + 1];
    var first := [ListStartEvent, ValueEvent(ToValue(ps))];
    var items := ItemEvents(ps.src.tokens, ps.next, n);
    var err := ErrorEvent(t.pos, NotAValue + TokenTypeString(t.typ));
    var s := Emit(Emit(ps, first[0]), first[1]);
    ListLoopBadItem(Advance(s).st, n);
    AppendTwo(ps.events, first[0], first[1]);
    AppendAppend(ps.events, first, items);
    AppendAppend(ps.events, first + items, [err]);
    EventsAppend(ps.events, first + items + [err]);
  }

  // ---------------------------------------------------------------------------
  // Maps (parser.go:339-395).

  /** A well-formed entry starts at index `c`: `^name` or `!name`, or `key : value`, with a token after it. */
  predicate IsEntry(tokens: seq<Token>, c: nat) {
    c < |tokens| &&
    if tokens[c].typ == TokenFieldPrefix then c + 2 < |tokens| && tokens[c + 1].typ == TokenIdentifier
    else c + 3 < |tokens| && IsValueToken(tokens[c].typ) && tokens[c + 1].typ == TokenPairSeparator && IsValueToken(tokens[c + 2].typ)
  }

  /** The index of the token after the entry at `c`. */
  function EntryEnd(tokens: seq<Token>, c: nat): nat
    requires c < |tokens|
  {
    if tokens[c].typ == TokenFieldPrefix then c + 2 else c + 3
  }

  /** The key and value events of the entry at `c`; a prefix stands for true (`^`) or false (`!`). */
  function EntryEvents(tokens: seq<Token>, c: nat): seq<ParserEvent>
    requires IsEntry(tokens, c)
  {
    var t := tokens[c];
    if t.typ == TokenFieldPrefix then
      [MapKeyEvent(ValueFromToken(tokens[c + 1])), ValueEvent(Value(BooleanValue, if t.val == "^" then "true" else "false"))]
    else [MapKeyEvent(ValueFromToken(t)), ValueEvent(ValueFromToken(tokens[c + 2]))]
  }

  /** `n` further entries from index `c` on, each after a `;`. */
  predicate MoreEntries(tokens: seq<Token>, c: nat, n: nat)
    decreases n
  {
    c < |tokens| &&
    (n > 0 ==> tokens[c].typ == TokenListSeparator && IsEntry(tokens, c + 1) && MoreEntries(tokens, EntryEnd(tokens, c + 1), n - 1))
  }

  /** The index of the token after those entries. */
  function MoreEnd(tokens: seq<Token>, c: nat, n: nat): (e: nat)
    requires MoreEntries(tokens, c, n)
    ensures c <= e < |tokens|
    decreases n
  {
    if n == 0 then c else MoreEnd(tokens, EntryEnd(tokens, c + 1), n - 1)
  }

  /** Their events, entry by entry. */
  function MoreEvents(tokens: seq<Token>, c: nat, n: nat): seq<ParserEvent>
    requires MoreEntries(tokens, c, n)
    decreases n
  {
    if n == 0 then [] else EntryEvents(tokens, c + 1) + MoreEvents(tokens, EntryEnd(tokens, c + 1), n - 1)
  }

  /** A well-formed entry adds its key and value and moves past it. */
  lemma DictEntryEvents(ps: PState)
    requires Inv(ps) && ps.hasToken && Nest(ps.events).Some?
    requires IsEntry(ps.src.tokens, ps.next - 1)
    ensures var c, r := ps.next - 1, DictEntry(ps);
      r.ok && r.st.next == EntryEnd(ps.src.tokens, c) + 1 && r.st.events == Append(ps.events, EntryEvents(ps.src.tokens, c))
  {
    var ev := EntryEvents(ps.src.tokens, ps.next - 1);
    AppendTwo(ps.events, ev[0], ev[1]);
    if ps.current.typ != TokenFieldPrefix {
      var k := Advance(Emit(ps, MapKeyEvent(ToValue(ps)))).st;
      var b := Advance(k).st;
      assert DictEntry(ps) == Advance(Emit(b, ValueEvent(ToValue(b))));
    }
  }

  /** A value not followed by `:` where an entry belongs: its key, then an error at the token found instead. */
  lemma DictPairWithoutSeparator(ps: PState)
    requires Inv(ps) && ps.hasToken && Nest(ps.events).Some? && IsValueToken(ps.current.typ)
    requires ps.next < |ps.src.tokens| && ps.src.tokens[ps.next].typ != TokenPairSeparator
    ensures var r, t := DictEntry(ps), ps.src.tokens[ps.next];
      !r.ok && r.st.events == Snoc(Snoc(ps.events, MapKeyEvent(ValueFromToken(ps.current))), ErrorEvent(t.pos, Expected(TokenPairSeparator, t.typ)))
  {
    var a := Advance(Emit(ps, MapKeyEvent(ToValue(ps))));
    assert DictEntry(ps) == IsToken(a.st, TokenPairSeparator);
  }

  /** One entry: the loop on a `;` before a well-formed entry adds the entry and goes on from the state `b` after it. */
  lemma DictLoopStep(ps: PState) returns (b: PState)
    requires Inv(ps) && ps.hasToken && Nest(ps.events).Some?
    requires ps.current.typ == TokenListSeparator && IsEntry(ps.src.tokens, ps.next)
    ensures Inv(b) && b.hasToken && Nest(b.events).Some? && b.src == ps.src
    ensures b.next == EntryEnd(ps.src.tokens, ps.next) + 1 && b.events == Append(ps.events, EntryEvents(ps.src.tokens, ps.next))
    ensures DictLoop(ps) == DictLoop(b)
  {
    DictEntryEvents(Advance(ps).st);
    b := DictEntry(Advance(ps).st).st;
  }

  /** The entry loop at a token other than `;` stops there and succeeds. */
  lemma DictLoopEnd(ps: PState)
    requires Inv(ps) && ps.hasToken && Nest(ps.events).Some? && ps.current.typ != TokenListSeparator
    ensures DictLoop(ps) == Outcome(ps, true)
  {
  }

  /** The entry loop, standing on the token at `c`, takes `n` well-formed entries and succeeds at a token after them that is not `;`. */
  lemma {:induction false} DictLoopEntries(ps: PState, n: nat)
    requires Inv(ps) && ps.hasToken && Nest(ps.events).Some?
    requires MoreEntries(ps.src.tokens, ps.next - 1, n)
    requires ps.src.tokens[MoreEnd(ps.src.tokens, ps.next - 1, n)].typ != TokenListSeparator
    ensures var r := DictLoop(ps);
      r.ok && r.st.next == MoreEnd(ps.src.tokens, ps.next - 1, n) + 1 &&
      r.st.events == Append(ps.events, MoreEvents(ps.src.tokens, ps.next - 1, n))
    decreases n
  {
    if n == 0 {
      DictLoopEnd(ps);
    } else {
      var b := DictLoopStep(ps);
      DictLoopEntries(b, n - 1);
      MoreEntriesStep(ps.src.tokens, ps.next - 1, n);
      AppendAppend(ps.events, EntryEvents(ps.src.tokens, ps.next), MoreEvents(ps.src.tokens, b.next - 1, n - 1));
    }
  }

  /** Further entries after the first: where they end and what they add. */
  lemma MoreEntriesStep(tokens: seq<Token>, c: nat, n: nat)
    requires MoreEntries(tokens, c, n) && n > 0
    ensures MoreEntries(tokens, EntryEnd(tokens, c + 1), n - 1)
    ensures MoreEnd(tokens, c, n) == MoreEnd(tokens, EntryEnd(tokens, c + 1), n - 1)
    ensures MoreEvents(tokens, c, n) == EntryEvents(tokens, c + 1) + MoreEvents(tokens, EntryEnd(tokens, c + 1), n - 1)
  {
  }

  /** The loop on a `;` before a value that `:` does not follow: the key, then the PairSeparator error. */
  lemma DictLoopPairWithoutSeparator(ps: PState)
    requires Inv(ps) && ps.hasToken && Nest(ps.events).Some?
    requires ps.current.typ == TokenListSeparator && ps.next + 1 < |ps.src.tokens|
    requires IsValueToken(ps.src.tokens[ps.next].typ) && ps.src.tokens[ps.next + 1].typ != TokenPairSeparator
    ensures var r, t := DictLoop(ps), ps.src.tokens[ps.next + 1];
      !r.ok && r.st.events == Snoc(Snoc(ps.events, MapKeyEvent(ValueFromToken(ps.src.tokens[ps.next]))), ErrorEvent(t.pos, Expected(TokenPairSeparator, t.typ)))
  {
    DictPairWithoutSeparator(Advance(ps).st);
  }

  /** At index `e`, a `;` and a value that no `:` follows. */
  predicate PairWithoutSeparator(tokens: seq<Token>, e: nat) {
    e + 2 < |tokens| && tokens[e].typ == TokenListSeparator && IsValueToken(tokens[e + 1].typ) && tokens[e + 2].typ != TokenPairSeparator
  }

  /** What such a pair adds: its key, then the PairSeparator error at the token found instead of `:`. */
  function PairError(tokens: seq<Token>, e: nat): seq<ParserEvent>
    requires PairWithoutSeparator(tokens, e)
  {
    [MapKeyEvent(ValueFromToken(tokens[e + 1])), ErrorEvent(tokens[e + 2].pos, Expected(TokenPairSeparator, tokens[e + 2].typ))]
  }

  /** The loop on a `;`, a value and no `:`, as a pair error. */
  lemma DictLoopBadFirstPair(ps: PState)
    requires Inv(ps) && ps.hasToken && Nest(ps.events).Some?
    requires PairWithoutSeparator(ps.src.tokens, ps.next - 1)
    ensures var r := DictLoop(ps);
      !r.ok && r.st.events == Append(ps.events, PairError(ps.src.tokens, ps.next - 1))
  {
    var tokens := ps.src.tokens;
    DictLoopPairWithoutSeparator(ps);
    var key := MapKeyEvent(ValueFromToken(tokens[ps.next]));
    var err := ErrorEvent(tokens[ps.next + 1].pos, Expected(TokenPairSeparator, tokens[ps.next + 1].typ));
    assert PairError(tokens, ps.next - 1) == [key, err];
    AppendTwo(ps.events, key, err);
  }

  /** After `n` well-formed entries, a `;`, a value and no `:`: the entries, the key, then the PairSeparator error. */
  lemma {:induction false} DictLoopBadPair(ps: PState, n: nat)
    requires Inv(ps) && ps.hasToken && Nest(ps.events).Some?
    requires MoreEntries(ps.src.tokens, ps.next - 1, n)
    requires PairWithoutSeparator(ps.src.tokens, MoreEnd(ps.src.tokens, ps.next - 1, n))
    ensures var tokens, c, r := ps.src.tokens, ps.next - 1, DictLoop(ps);
      !r.ok && r.st.events == Append(Append(ps.events, MoreEvents(tokens, c, n)), PairError(tokens, MoreEnd(tokens, c, n)))
    decreases n
  {
    var tokens := ps.src.tokens;
    if n == 0 {
      DictLoopBadFirstPair(ps);
    } else {
      var b := DictLoopStep(ps);
      DictLoopBadPair(b, n - 1);
      AppendAppend(ps.events, EntryEvents(tokens, ps.next), MoreEvents(tokens, b.next - 1, n - 1));
    }
  }

  /** A map of one entry and then `n` more from index `c` on. */
  predicate IsMap(tokens: seq<Token>, c: nat, n: nat) {
    IsEntry(tokens, c) && MoreEntries(tokens, EntryEnd(tokens, c), n)
  }

  /** The index of the token after the map. */
  function MapEnd(tokens: seq<Token>, c: nat, n: nat): nat
    requires IsMap(tokens, c, n)
  {
    MoreEnd(tokens, EntryEnd(tokens, c), n)
  }

  /** The key and value events of all its entries, in order. */
  function MapEvents(tokens: seq<Token>, c: nat, n: nat): seq<ParserEvent>
    requires IsMap(tokens, c, n)
  {
    EntryEvents(tokens, c) + MoreEvents(tokens, EntryEnd(tokens, c), n)
  }

  /** Where the entry loop starts: the state `b` after the map's opening and first entry. */
  lemma DictValueFirst(ps: PState) returns (b: PState)
    requires Inv(ps) && ps.hasToken && Nest(ps.events).Some?
    requires IsEntry(ps.src.tokens, ps.next - 1)
    ensures Inv(b) && b.hasToken && Nest(b.events).Some? && b.src == ps.src
    ensures b.next == EntryEnd(ps.src.tokens, ps.next - 1) + 1
    ensures b.events == Append(Snoc(ps.events, MapStartEvent), EntryEvents(ps.src.tokens, ps.next - 1))
    ensures DictValue(ps) == (var l := DictLoop(b); if !l.ok then l else Outcome(Emit(l.st, MapEndEvent), true))
  {
    DictEntryEvents(Emit(ps, MapStartEvent));
    b := DictEntry(Emit(ps, MapStartEvent)).st;
  }

  /** The log of the map's opening and its entries. */
  lemma OpenedMap(ps: PState, b: PState, n: nat)
    requires Inv(ps) && ps.hasToken && IsMap(ps.src.tokens, ps.next - 1, n)
    requires b.events == Append(Snoc(ps.events, MapStartEvent), EntryEvents(ps.src.tokens, ps.next - 1))
    ensures var tokens, c := ps.src.tokens, ps.next - 1;
      Append(b.events, MoreEvents(tokens, EntryEnd(tokens, c), n)) == Append(ps.events, [MapStartEvent] + MapEvents(tokens, c, n))
  {
    var tokens, c := ps.src.tokens, ps.next - 1;
    var first, rest := EntryEvents(tokens, c), MoreEvents(tokens, EntryEnd(tokens, c), n);
    AppendAppend(Snoc(ps.events, MapStartEvent), first, rest);
    AppendCons(ps.events, MapStartEvent, first + rest);
  }

  /**
   * A map of `n + 1` entries followed by a token other than `;`: the map of
   * those entries, and the parser stands on that token.
   */
  lemma DictValueEvents(ps: PState, n: nat)
    requires Inv(ps) && ps.hasToken && Nest(ps.events).Some?
    requires IsMap(ps.src.tokens, ps.next - 1, n)
    requires ps.src.tokens[MapEnd(ps.src.tokens, ps.next - 1, n)].typ != TokenListSeparator
    ensures var c, r := ps.next - 1, DictValue(ps);
      r.ok && r.st.next == MapEnd(ps.src.tokens, c, n) + 1 &&
      Events(r.st.events) == Events(ps.events) + ([MapStartEvent] + MapEvents(ps.src.tokens, c, n) + [MapEndEvent])
  {
    var tokens, c := ps.src.tokens, ps.next - 1;
    var b := DictValueFirst(ps);
    DictLoopEntries(b, n);
    OpenedMap(ps, b, n);
    var p := [MapStartEvent] + MapEvents(tokens, c, n);
    AppendAppend(ps.events, p, [MapEndEvent]);
    assert Append(Append(ps.events, p), [MapEndEvent]) == Snoc(Append(ps.events, p), MapEndEvent) by {
      assert [MapEndEvent][1..] == [];
    }
    EventsAppend(ps.events, p + [MapEndEvent]);
  }

  const ExpectedPairSeparator := "expected PairSeparator, got "

  /** The PairSeparator error names the kind of the token found instead. */
  lemma PairErrorText(tokens: seq<Token>, e: nat)
    requires PairWithoutSeparator(tokens, e)
    ensures var t := tokens[e + 2];
      PairError(tokens, e) == [MapKeyEvent(ValueFromToken(tokens[e + 1])), ErrorEvent(t.pos, ExpectedPairSeparator + TokenTypeString(t.typ))]
  {
    assert "expected " + TokenTypeString(TokenPairSeparator) + ", got " == ExpectedPairSeparator;
  }

  /**
   * After a map's `n + 1` entries, a `;` and a value that `:` does not follow:
   * the map's opening and entries, then the pair's key and the PairSeparator
   * error (whose text `PairErrorText` gives).
   */
  lemma DictValueBadPair(ps: PState, n: nat)
    requires Inv(ps) && ps.hasToken && Nest(ps.events).Some?
    requires IsMap(ps.src.tokens, ps.next - 1, n)
    requires PairWithoutSeparator(ps.src.tokens, MapEnd(ps.src.tokens, ps.next - 1, n))
    ensures var tokens, c, r := ps.src.tokens, ps.next - 1, DictValue(ps);
      !r.ok && Events(r.st.events) == Events(ps.events) + ([MapStartEvent] + MapEvents(tokens, c, n) + PairError(tokens, MapEnd(tokens, c, n)))
  {
    var tokens, c := ps.src.tokens, ps.next - 1;
    var e := MapEnd(tokens, c, n);
    var p, pe := [MapStartEvent] + MapEvents(tokens, c, n), PairError(tokens, e);
    var b := DictValueFirst(ps);
    DictLoopBadPair(b, n);
    OpenedMap(ps, b, n);
    assert MoreEnd(tokens, b.next - 1, n) == e;
    AppendAppend(ps.events, p, pe);
    EventsAppend(ps.events, p + pe);
  }

  // ---------------------------------------------------------------------------
  // A first field `name=...`, as in the map and error cases of parser_test.go.

  /** Input that starts `name =`: the parse is that assignment, inside the top-level map. */
  lemma FirstAssignment(tokens: seq<Token>, opts: seq<ParseOptions>) returns (ps: PState)
    requires 2 < |tokens| && tokens[0].typ == TokenIdentifier && tokens[1].typ == TokenAssign
    ensures Inv(ps) && ps.hasToken && Nest(ps.events).Some? && IsNext(ps, [TokenAssign])
    ensures ps.src.tokens == tokens && ps.next == 1 && ps.current == tokens[0] && ps.events == Snoc(Empty, MapStartEvent)
    ensures !Assignment(ps).ok ==> ParseTokens(tokens, opts) == Events(Assignment(ps).st.events)
    ensures Assignment(ps).ok && Assignment(ps).st.next == |tokens| ==>
      ParseTokens(tokens, opts) == Events(Assignment(ps).st.events) + [MapEndEvent]
  {
    var src := Source(tokens, Options(opts));
    ps := PState(src, 1, true, tokens[0], LabeledState, Snoc(Empty, MapStartEvent));
    assert Field(PState(src, 1, true, tokens[0], StartState, Empty)) == Assignment(ps);
    var r := Assignment(ps);
    if r.ok && r.st.next == |tokens| {
      assert Finish(tokens, Options(opts)) == FieldList(r.st);
      assert FieldList(r.st).events == Snoc(r.st.events, MapEndEvent);
    }
  }

  lemma PairSeparatorEofText()
    ensures ExpectedPairSeparator + TokenTypeString(TokenEOF) == "expected PairSeparator, got EOF"
  {
  }

  lemma NotAValueEofText()
    ensures NotAValue + TokenTypeString(TokenEOF) == "expected value, got EOF"
  {
  }

  lemma NotAValuePairSeparatorText()
    ensures NotAValue + TokenTypeString(TokenPairSeparator) == "expected value, got PairSeparator"
  {
  }

  lemma SevenEvents(a: ParserEvent, b: ParserEvent, c: ParserEvent, d: ParserEvent, e: ParserEvent, f: ParserEvent, g: ParserEvent)
    ensures [a, b] + ([c] + [d, e] + [f, g]) == [a, b, c, d, e, f, g]
  {
  }

  lemma FiveEvents(a: ParserEvent, b: ParserEvent, c: ParserEvent, d: ParserEvent, e: ParserEvent)
    ensures [a, b] + ([c, d] + [] + [e]) == [a, b, c, d, e]
  {
  }

  /** The kinds of the tokens, in order. */
  predicate HasKinds(tokens: seq<Token>, kinds: seq<TokenType>) {
    |tokens| == |kinds| && forall k :: 0 <= k < |kinds| ==> tokens[k].typ == kinds[k]
  }

  /** The kinds of `settings=key:value;value`. */
  const MixedKinds := [TokenIdentifier, TokenAssign, TokenIdentifier, TokenPairSeparator, TokenIdentifier,
                       TokenListSeparator, TokenIdentifier, TokenEOF]

  /** Input that starts `name = value :` or `name = ^`/`!`: the parse is the map value after the key, inside the top-level map. */
  lemma FirstMapValue(tokens: seq<Token>, opts: seq<ParseOptions>) returns (v: PState)
    requires 4 < |tokens| && tokens[0].typ == TokenIdentifier && tokens[1].typ == TokenAssign
    requires tokens[2].typ == TokenFieldPrefix || (IsValueToken(tokens[2].typ) && tokens[3].typ == TokenPairSeparator)
    ensures Inv(v) && v.hasToken && Nest(v.events).Some? && v.src.tokens == tokens && v.next == 3
    ensures Events(v.events) == [MapStartEvent, MapKeyEvent(ValueFromToken(tokens[0]))]
    ensures !DictValue(v).ok ==> ParseTokens(tokens, opts) == Events(DictValue(v).st.events)
    ensures DictValue(v).ok && DictValue(v).st.next == |tokens| ==>
      ParseTokens(tokens, opts) == Events(DictValue(v).st.events) + [MapEndEvent]
  {
    var ps := FirstAssignment(tokens, opts);
    v := AssignmentValueAt(ps);
    ValueContentIsMap(v);
    assert Events(Snoc(Empty, MapStartEvent)) == [MapStartEvent];
  }

  /** The map value of `settings=key:value;value`, from `key` on. */
  lemma MixedMapValue(v: PState)
    requires Inv(v) && v.hasToken && Nest(v.events).Some? && HasKinds(v.src.tokens, MixedKinds) && v.next == 3
    ensures var tokens, r := v.src.tokens, DictValue(v);
      !r.ok && Events(r.st.events) == Events(v.events) +
        ([MapStartEvent] + [MapKeyEvent(ValueFromToken(tokens[2])), ValueEvent(ValueFromToken(tokens[4]))] +
         [MapKeyEvent(ValueFromToken(tokens[6])), ErrorEvent(tokens[7].pos, "expected PairSeparator, got EOF")])
  {
    var tokens := v.src.tokens;
    assert tokens[2].typ == TokenIdentifier && tokens[3].typ == TokenPairSeparator && tokens[4].typ == TokenIdentifier;
    assert tokens[5].typ == TokenListSeparator && tokens[6].typ == TokenIdentifier && tokens[7].typ == TokenEOF;
    assert IsMap(tokens, 2, 0) && MapEnd(tokens, 2, 0) == 5;
    DictValueBadPair(v, 0);
    PairErrorText(tokens, 5);
    PairSeparatorEofText();
  }

  /** `settings=key:value;value`: a map entry, then `;` and a bare value, gives `expected PairSeparator, got EOF`. */
  lemma MixedMapAndListFails(tokens: seq<Token>, opts: seq<ParseOptions>)
    requires HasKinds(tokens, MixedKinds)
    ensures ParseTokens(tokens, opts) ==
      [MapStartEvent, MapKeyEvent(ValueFromToken(tokens[0])), MapStartEvent, MapKeyEvent(ValueFromToken(tokens[2])),
       ValueEvent(ValueFromToken(tokens[4])), MapKeyEvent(ValueFromToken(tokens[6])),
       ErrorEvent(tokens[7].pos, "expected PairSeparator, got EOF")]
  {
    assert tokens[0].typ == TokenIdentifier && tokens[1].typ == TokenAssign && tokens[2].typ == TokenIdentifier;
    assert tokens[3].typ == TokenPairSeparator;
    var v := FirstMapValue(tokens, opts);
    MixedMapValue(v);
    SevenEvents(MapStartEvent, MapKeyEvent(ValueFromToken(tokens[0])), MapStartEvent, MapKeyEvent(ValueFromToken(tokens[2])),
      ValueEvent(ValueFromToken(tokens[4])), MapKeyEvent(ValueFromToken(tokens[6])), ErrorEvent(tokens[7].pos, "expected PairSeparator, got EOF"));
  }

  lemma NineEvents(a: ParserEvent, b: ParserEvent, c: ParserEvent, d: ParserEvent, e: ParserEvent, f: ParserEvent,
                   g: ParserEvent, h: ParserEvent, i: ParserEvent)
    ensures [a, b] + ([c] + ([d, e] + ([f, g] + [])) + [h]) + [i] == [a, b, c, d, e, f, g, h, i]
  {
  }

  /** The kinds of `settings=host:localhost;port:8080`. */
  const LabeledMapKinds := [TokenIdentifier, TokenAssign, TokenIdentifier, TokenPairSeparator, TokenIdentifier,
                            TokenListSeparator, TokenIdentifier, TokenPairSeparator, TokenNumber, TokenEOF]

  /** `settings=host:localhost;port:8080`: the top-level map holds `settings`, whose value is the map of both pairs. */
  lemma LabeledMapParses(tokens: seq<Token>, opts: seq<ParseOptions>)
    requires HasKinds(tokens, LabeledMapKinds)
    ensures ParseTokens(tokens, opts) ==
      [MapStartEvent, MapKeyEvent(ValueFromToken(tokens[0])), MapStartEvent,
       MapKeyEvent(ValueFromToken(tokens[2])), ValueEvent(ValueFromToken(tokens[4])),
       MapKeyEvent(ValueFromToken(tokens[6])), ValueEvent(ValueFromToken(tokens[8])), MapEndEvent, MapEndEvent]
  {
    assert tokens[0].typ == TokenIdentifier && tokens[1].typ == TokenAssign && tokens[2].typ == TokenIdentifier;
    assert tokens[3].typ == TokenPairSeparator && tokens[4].typ == TokenIdentifier && tokens[5].typ == TokenListSeparator;
    assert tokens[6].typ == TokenIdentifier && tokens[7].typ == TokenPairSeparator && tokens[8].typ == TokenNumber;
    assert tokens[9].typ == TokenEOF;
    var v := FirstMapValue(tokens, opts);
    assert IsMap(tokens, 2, 1) && MapEnd(tokens, 2, 1) == 9;
    DictValueEvents(v, 1);
    NineEvents(MapStartEvent, MapKeyEvent(ValueFromToken(tokens[0])), MapStartEvent,
      MapKeyEvent(ValueFromToken(tokens[2])), ValueEvent(ValueFromToken(tokens[4])),
      MapKeyEvent(ValueFromToken(tokens[6])), ValueEvent(ValueFromToken(tokens[8])), MapEndEvent, MapEndEvent);
  }

  /** The kinds of `features=^enabled;!disabled`. */
  const PrefixMapKinds := [TokenIdentifier, TokenAssign, TokenFieldPrefix, TokenIdentifier, TokenListSeparator,
                           TokenFieldPrefix, TokenIdentifier, TokenEOF]

  /** `features=^enabled;!disabled`: the value of `features` is the map of `enabled` to true and `disabled` to false. */
  lemma PrefixMapParses(tokens: seq<Token>, opts: seq<ParseOptions>)
    requires HasKinds(tokens, PrefixMapKinds) && tokens[2].val == "^" && tokens[5].val == "!"
    ensures ParseTokens(tokens, opts) ==
      [MapStartEvent, MapKeyEvent(ValueFromToken(tokens[0])), MapStartEvent,
       MapKeyEvent(ValueFromToken(tokens[3])), ValueEvent(Value(BooleanValue, "true")),
       MapKeyEvent(ValueFromToken(tokens[6])), ValueEvent(Value(BooleanValue, "false")), MapEndEvent, MapEndEvent]
  {
    assert tokens[0].typ == TokenIdentifier && tokens[1].typ == TokenAssign && tokens[2].typ == TokenFieldPrefix;
    assert tokens[3].typ == TokenIdentifier && tokens[4].typ == TokenListSeparator && tokens[5].typ == TokenFieldPrefix;
    assert tokens[6].typ == TokenIdentifier && tokens[7].typ == TokenEOF;
    var v := FirstMapValue(tokens, opts);
    assert IsMap(tokens, 2, 1) && MapEnd(tokens, 2, 1) == 7;
    DictValueEvents(v, 1);
    NineEvents(MapStartEvent, MapKeyEvent(ValueFromToken(tokens[0])), MapStartEvent,
      MapKeyEvent(ValueFromToken(tokens[3])), ValueEvent(Value(BooleanValue, "true")),
      MapKeyEvent(ValueFromToken(tokens[6])), ValueEvent(Value(BooleanValue, "false")), MapEndEvent, MapEndEvent);
  }

  /** Input that starts `name = value ;`: the parse is the list value after the key, inside the top-level map. */
  lemma FirstListValue(tokens: seq<Token>, opts: seq<ParseOptions>) returns (v: PState)
    requires 4 < |tokens| && tokens[0].typ == TokenIdentifier && tokens[1].typ == TokenAssign
    requires IsValueToken(tokens[2].typ) && tokens[3].typ == TokenListSeparator
    ensures Inv(v) && v.hasToken && Nest(v.events).Some? && v.src.tokens == tokens && v.next == 3
    ensures Events(v.events) == [MapStartEvent, MapKeyEvent(ValueFromToken(tokens[0]))]
    ensures !ListValue(v).ok ==> ParseTokens(tokens, opts) == Events(ListValue(v).st.events)
  {
    var ps := FirstAssignment(tokens, opts);
    v := AssignmentValueAt(ps);
    ValueContentIsList(v);
    assert Events(Snoc(Empty, MapStartEvent)) == [MapStartEvent];
  }

  /** `a=1;`: a `;` and then the end where a list item belongs gives `expected value, got EOF`. */
  lemma ListWithoutItemFails(tokens: seq<Token>, opts: seq<ParseOptions>)
    requires HasKinds(tokens, [TokenIdentifier, TokenAssign, TokenNumber, TokenListSeparator, TokenEOF])
    ensures ParseTokens(tokens, opts) ==
      [MapStartEvent, MapKeyEvent(ValueFromToken(tokens[0])), ListStartEvent, ValueEvent(ValueFromToken(tokens[2])),
       ErrorEvent(tokens[4].pos, "expected value, got EOF")]
  {
    assert tokens[0].typ == TokenIdentifier && tokens[1].typ == TokenAssign && tokens[2].typ == TokenNumber;
    assert tokens[3].typ == TokenListSeparator && tokens[4].typ == TokenEOF;
    var v := FirstListValue(tokens, opts);
    ListValueBadItem(v, 0);
    NotAValueEofText();
    assert ItemEvents(tokens, 2, 0) == [];
    FiveEvents(MapStartEvent, MapKeyEvent(ValueFromToken(tokens[0])), ListStartEvent, ValueEvent(ValueFromToken(tokens[2])),
      ErrorEvent(tokens[4].pos, "expected value, got EOF"));
  }

  /** `settings=:value`: `:` where the value belongs gives `expected value, got PairSeparator`. */
  lemma MissingMapKeyFails(tokens: seq<Token>, opts: seq<ParseOptions>)
    requires HasKinds(tokens, [TokenIdentifier, TokenAssign, TokenPairSeparator, TokenIdentifier, TokenEOF])
    ensures ParseTokens(tokens, opts) ==
      [MapStartEvent, MapKeyEvent(ValueFromToken(tokens[0])), ErrorEvent(tokens[2].pos, "expected value, got PairSeparator")]
  {
    assert tokens[0].typ == TokenIdentifier && tokens[1].typ == TokenAssign && tokens[2].typ == TokenPairSeparator;
    var ps := FirstAssignment(tokens, opts);
    AssignmentNotAValue(ps);
    NotAValuePairSeparatorText();
    var key, err := MapKeyEvent(ValueFromToken(tokens[0])), ErrorEvent(tokens[2].pos, "expected value, got PairSeparator");
    assert Assignment(ps).st.events == Snoc(Snoc(ps.events, key), err);
    assert Events(ps.events) == [MapStartEvent];
    assert Events(Snoc(ps.events, key)) == [MapStartEvent, key];
  }

  // ---------------------------------------------------------------------------
  // A field followed by a lexing error.

  /** The tokens of `a=1 @`: the lexer stops at `@` with an Error token. */
  const TrailingError := [Token(TokenIdentifier, Position(0, 1), "a"), Token(TokenAssign, Position(1, 2), "="),
                          Token(TokenNumber, Position(2, 3), "1"), Token(TokenError, Position(4, 5), UnexpectedCharacter('@'))]

  /**
   * The field list reads no token after a completed field before advancing
   * again, so the Error token that follows `a=1` is passed over and the parse
   * closes the map without reporting it.
   */
  lemma TrailingErrorIgnored()
    ensures ParseTokens(TrailingError, []) ==
      [MapStartEvent, MapKeyEvent(Value(IdentifierValue, "a")), ValueEvent(Value(NumberValue, "1")), MapEndEvent]
  {
    var src := Source(TrailingError, ParseDefaults());
    var l := Snoc(Snoc(Snoc(Empty, MapStartEvent), MapKeyEvent(Value(IdentifierValue, "a"))), ValueEvent(Value(NumberValue, "1")));
    var f := PState(src, 4, true, TrailingError[3], LabeledState, l);
    assert Field(PState(src, 1, true, TrailingError[0], StartState, Empty)) == Outcome(f, true);
    assert Finish(TrailingError, Options([])) == FieldList(f);
    assert FieldList(f).events == Snoc(l, MapEndEvent);
  }
}
