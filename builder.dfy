/**
 * The Builder of builder.go: an append-only list of field texts, a flag that
 * records whether a labeled field has been added, and the formatting options
 * that choose the separators the fields are joined with.
 */
module Builders {
  import opened Tokens
  import LexSpec

  /** The characters that force a string value into quotes. */
  const SpecialChars := " ,;:=\\"

  /** A builder argument (Go's `any`) by the cases formatValue tells apart. */
  datatype Arg =
    | Str(s: string)
    | Nil
      /** Any other value, carrying the text `fmt.Sprint` prints for it. */
    | Other(printed: string)

  /** Whether some character of `s` is one of `chars` (strings.ContainsAny). */
  function ContainsAny(s: string, chars: string): (b: bool)
    ensures b <==> exists i :: 0 <= i < |s| && s[i] in chars
  {
    if s == "" then false
    else s[0] in chars || ContainsAny(s[1..], chars)
  }

  function NeedsQuoting(s: string): (b: bool)
    ensures b <==> s == "" || (exists i :: 0 <= i < |s| && s[i] in SpecialChars) || s in {"true", "false", "nil"}
  {
    s == "" || ContainsAny(s, SpecialChars) || s == "true" || s == "false" || s == "nil"
  }

  /** The escape `%q` writes for one character inside double quotes. */
  function EscapeChar(c: char): (e: string)
    ensures 0 < |e| && (e[0] == '\\' <==> |e| == 2) && |e| <= 2
    ensures |e| == 1 ==> e[0] != '"'
  {
    if c == '"' then "\\\""
    else if c == '\\' then "\\\\"
    else if c == '\n' then "\\n"
    else if c == '\r' then "\\r"
    else if c == '\t' then "\\t"
    else [c]
  }

  function Escape(s: string): string {
    if s == "" then "" else EscapeChar(s[0]) + Escape(s[1..])
  }

  /** A double-quoted string literal for `s`. */
  function Quote(s: string): (q: string)
    ensures |q| >= 2 && q[0] == '"' && q[|q| - 1] == '"'
  {
    "\"" + Escape(s) + "\""
  }

  /** The lexer scans the escaped text and its closing quote as the rest of one string. */
  lemma {:induction false} EscapedScansToQuote(pre: string, s: string)
    ensures LexSpec.ScanString(pre + Escape(s) + "\"", |pre|, '"' as int) ==
            LexSpec.Lexeme(TokenString, |pre + Escape(s)| + 1)
    decreases |s|
  {
    var input := pre + Escape(s) + "\"";
    if s == "" {
      assert input[|pre|] == '"';
    } else {
      var e := EscapeChar(s[0]);
      var pre' := pre + e;
      assert Escape(s) == e + Escape(s[1..]);
      assert input == pre' + Escape(s[1..]) + "\"";
      EscapedScansToQuote(pre', s[1..]);
      assert input[|pre|] == e[0];
      // One step of the scan moves past the whole escape.
      if |e| == 2 {
        assert input[|pre|] == '\\' && |pre| + 1 < |input|;
        assert LexSpec.ScanString(input, |pre|, '"' as int) == LexSpec.ScanString(input, |pre| + 2, '"' as int);
      } else {
        assert input[|pre|] != '\\' && input[|pre|] != '"';
        assert LexSpec.ScanString(input, |pre|, '"' as int) == LexSpec.ScanString(input, |pre| + 1, '"' as int);
      }
    }
  }

  /** A quoted value reads back as exactly one string token. */
  lemma QuoteLexesAsOneString(s: string, letter: int -> bool)
    ensures LexSpec.ScanToken(Quote(s), letter, 0) == LexSpec.Lexeme(TokenString, |Quote(s)|)
  {
    EscapedScansToQuote("\"", s);
    assert Quote(s) == "\"" + Escape(s) + "\"";
  }

  /** The text a value is written as. */
  function FormatValue(v: Arg): (r: string)
    ensures v.Str? && !NeedsQuoting(v.s) ==> r == v.s
    ensures v.Str? && NeedsQuoting(v.s) ==> r == Quote(v.s)
    ensures v.Nil? ==> r == "nil"
    ensures v.Other? ==> r == v.printed
  {
    match v
    case Str(s) => if NeedsQuoting(s) then Quote(s) else s
    case Nil => "nil"
    case Other(printed) => printed
  }

  /**
   * A string value is never written as empty text or as a keyword, and it is
   * either written as is, free of separators, or as one string token.
   */
  lemma StringValueReadsBack(s: string, letter: int -> bool)
    ensures var r := FormatValue(Str(s));
      r != "" && r !in {"true", "false", "nil"} &&
      ((r == s && forall i :: 0 <= i < |r| ==> r[i] !in SpecialChars) ||
       LexSpec.ScanToken(r, letter, 0) == LexSpec.Lexeme(TokenString, |r|))
  {
    if NeedsQuoting(s) {
      QuoteLexesAsOneString(s, letter);
      var q := Quote(s);
      assert q[0] == '"' && q !in {"true", "false", "nil"};
    }
  }

  /** The unquoted cases of builder_test.go. */
  lemma PlainTextExamples()
    ensures !NeedsQuoting("abc-123") && !NeedsQuoting("123abc")
  {
  }

  /** A space or a separator character forces quotes. */
  lemma SeparatorExamples()
    ensures NeedsQuoting("hello world") && NeedsQuoting("a=b") && NeedsQuoting("a\\b")
  {
  }

  /** The empty string and the keywords are quoted so they do not read back as nothing or as a keyword. */
  lemma KeywordExamples()
    ensures NeedsQuoting("") && NeedsQuoting("true") && NeedsQuoting("false") && NeedsQuoting("nil")
  {
  }

  /** strings.Join: the parts with `sep` between neighbours. */
  function Join(parts: seq<string>, sep: string): string {
    if |parts| == 0 then ""
    else if |parts| == 1 then parts[0]
    else parts[0] + sep + Join(parts[1..], sep)
  }

  /** The pieces of `s` between occurrences of `c`. */
  function Split(s: string, c: char): (r: seq<string>)
    ensures |r| > 0
  {
    if s == "" then [""]
    else if s[0] == c then [""] + Split(s[1..], c)
    else
      var rest := Split(s[1..], c);
      [[s[0]] + rest[0]] + rest[1..]
  }

  lemma {:induction false} SplitAfterPart(a: string, b: string, c: char)
    requires forall i :: 0 <= i < |a| ==> a[i] != c
    ensures Split(a + [c] + b, c) == [a] + Split(b, c)
    decreases |a|
  {
    if a == "" {
      assert a + [c] + b == [c] + b;
      assert ([c] + b)[1..] == b;
    } else {
      var s := a + [c] + b;
      assert s[0] == a[0] && s[1..] == a[1..] + [c] + b;
      SplitAfterPart(a[1..], b, c);
      assert [a[0]] + a[1..] == a;
    }
  }

  lemma {:induction false} SplitSingle(a: string, c: char)
    requires forall i :: 0 <= i < |a| ==> a[i] != c
    ensures Split(a, c) == [a]
    decreases |a|
  {
    if a != "" {
      SplitSingle(a[1..], c);
      assert [a[0]] + a[1..] == a;
    }
  }

  /** Joining parts free of a one-character separator can be undone by splitting at it. */
  lemma {:induction false} SplitJoin(parts: seq<string>, c: char)
    requires |parts| > 0
    requires forall k, i :: 0 <= k < |parts| && 0 <= i < |parts[k]| ==> parts[k][i] != c
    ensures Split(Join(parts, [c]), c) == parts
  {
    if |parts| == 1 {
      SplitSingle(parts[0], c);
    } else {
      SplitJoin(parts[1..], c);
      assert forall i :: 0 <= i < |parts[0]| ==> parts[0][i] != c by {
        forall i | 0 <= i < |parts[0]| ensures parts[0][i] != c {
          assert parts[0][i] == parts[0][i];
        }
      }
      SplitAfterPart(parts[0], Join(parts[1..], [c]), c);
      assert [parts[0]] + parts[1..] == parts;
    }
  }

  /** The texts of the values, in order. */
  function FormatAll(values: seq<Arg>): (r: seq<string>)
    ensures |r| == |values|
    ensures forall k :: 0 <= k < |r| ==> r[k] == FormatValue(values[k])
  {
    if values == [] then [] else [FormatValue(values[0])] + FormatAll(values[1..])
  }

  /** The `key:value` texts of consecutive argument pairs. */
  function PairParts(pairs: seq<Arg>, colon: string): (r: seq<string>)
    requires |pairs| % 2 == 0
    ensures |r| * 2 == |pairs|
    ensures forall k :: 0 <= k < |r| ==> r[k] == FormatValue(pairs[2 * k]) + colon + FormatValue(pairs[2 * k + 1])
  {
    if pairs == [] then []
    else [FormatValue(pairs[0]) + colon + FormatValue(pairs[1])] + PairParts(pairs[2..], colon)
  }

  datatype BuilderOptions = BuilderOptions(
    spaceAfterFieldSeparator: bool,
    spaceAfterListSeparator: bool,
    spaceAfterPairsSeparator: bool,
    spaceAroundFieldAssignment: bool)

  function BuilderDefaults(): (o: BuilderOptions)
    ensures !o.spaceAfterFieldSeparator && !o.spaceAfterListSeparator
    ensures !o.spaceAfterPairsSeparator && !o.spaceAroundFieldAssignment
  {
    BuilderOptions(false, false, false, false)
  }

  function Equals(o: BuilderOptions): string {
    if o.spaceAroundFieldAssignment then " = " else "="
  }

  function ListSeparator(o: BuilderOptions): string {
    if o.spaceAfterListSeparator then "; " else ";"
  }

  function Colon(o: BuilderOptions): string {
    if o.spaceAfterPairsSeparator then ": " else ":"
  }

  function FieldSeparator(o: BuilderOptions): string {
    if o.spaceAfterFieldSeparator then ", " else ","
  }

  /**
   * Fields accumulate in call order. Every labeled method sets `hasLabeled`, none
   * clears it, and `Ordered` requires it clear, so ordered values precede labeled fields.
   */
  class Builder {
    const options: BuilderOptions
    var fields: seq<string>
    var hasLabeled: bool

    /** NewBuilderWithOptions. */
    constructor(options: BuilderOptions)
      ensures this.options == options && fields == [] && !hasLabeled
    {
      this.options := options;
      fields := [];
      hasLabeled := false;
    }

    /** Go panics when a labeled field came first; that is this method's precondition. */
    method Ordered(value: Arg)
      requires !hasLabeled
      modifies this`fields
      ensures !hasLabeled
      ensures fields == old(fields) + [FormatValue(value)]
    {
      fields := fields + [FormatValue(value)];
    }

    method Enable(name: string)
      modifies this`fields, this`hasLabeled
      ensures hasLabeled && fields == old(fields) + ["^" + name]
    {
      hasLabeled := true;
      fields := fields + ["^" + name];
    }

    method Disable(name: string)
      modifies this`fields, this`hasLabeled
      ensures hasLabeled && fields == old(fields) + ["!" + name]
    {
      hasLabeled := true;
      fields := fields + ["!" + name];
    }

    method Boolean(name: string, value: bool)
      modifies this`fields, this`hasLabeled
      ensures hasLabeled
      ensures fields == old(fields) + [(if value then "^" else "!") + name]
    {
      if value {
        Enable(name);
      } else {
        Disable(name);
      }
    }

    method Labeled(name: string, value: Arg)
      modifies this`fields, this`hasLabeled
      ensures hasLabeled
      ensures fields == old(fields) + [name + Equals(options) + FormatValue(value)]
    {
      hasLabeled := true;
      var equals := "=";
      if options.spaceAroundFieldAssignment {
        equals := " = ";
      }
      fields := fields + [name + equals + FormatValue(value)];
    }

    method List(name: string, values: seq<Arg>)
      modifies this`fields, this`hasLabeled
      ensures hasLabeled
      ensures fields == old(fields) + [name + Equals(options) + Join(FormatAll(values), ListSeparator(options))]
    {
      hasLabeled := true;
      var equals := "=";
      if options.spaceAroundFieldAssignment {
        equals := " = ";
      }
      var parts := new string[|values|];
      for i := 0 to |values|
        invariant hasLabeled && fields == old(fields)
        invariant forall k :: 0 <= k < i ==> parts[k] == FormatValue(values[k])
      {
        parts[i] := FormatValue(values[i]);
      }
      assert parts[..] == FormatAll(values);
      var separator := ";";
      if options.spaceAfterListSeparator {
        separator := "; ";
      }
      fields := fields + [name + equals + Join(parts[..], separator)];
    }

    /** Go panics on an odd number of arguments; that is this method's precondition. */
    method Pairs(name: string, pairs: seq<Arg>)
      requires |pairs| % 2 == 0
      modifies this`fields, this`hasLabeled
      ensures hasLabeled
      ensures fields == old(fields) + [name + Equals(options) + Join(PairParts(pairs, Colon(options)), ListSeparator(options))]
    {
      hasLabeled := true;
      var equals := "=";
      if options.spaceAroundFieldAssignment {
        equals := " = ";
      }
      var colon := ":";
      if options.spaceAfterPairsSeparator {
        colon := ": ";
      }
      var parts: seq<string> := [];
      var i := 0;
      while i < |pairs|
        invariant hasLabeled && fields == old(fields)
        invariant i <= |pairs| && i % 2 == 0
        invariant parts == PairParts(pairs[..i], colon)
      {
        var k := FormatValue(pairs[i]);
        var v := FormatValue(pairs[i + 1]);
        PairPartsStep(pairs, i, colon);
        parts := parts + [k + colon + v];
        i := i + 2;
      }
      assert pairs[..i] == pairs;
      assert colon == Colon(options) && equals == Equals(options);
      var separator := ";";
      if options.spaceAfterListSeparator {
        separator := "; ";
      }
      fields := fields + [name + equals + Join(parts, separator)];
    }

    /** The built text: the fields joined by the field separator. */
    function String(): (s: string)
      reads this
      ensures s == Join(fields, FieldSeparator(options))
    {
      var separator := if options.spaceAfterFieldSeparator then ", " else ",";
      Join(fields, separator)
    }
  }

  /** One more pair of the arguments adds its `key:value` part. */
  lemma PairPartsStep(pairs: seq<Arg>, i: nat, colon: string)
    requires i + 2 <= |pairs| && i % 2 == 0
    ensures PairParts(pairs[..i + 2], colon) == PairParts(pairs[..i], colon) + [FormatValue(pairs[i]) + colon + FormatValue(pairs[i + 1])]
  {
    assert pairs[..i + 2] == pairs[..i] + [pairs[i], pairs[i + 1]];
    PairPartsAppend(pairs[..i], pairs[i], pairs[i + 1], colon);
  }

  lemma {:induction false} PairPartsAppend(pairs: seq<Arg>, k: Arg, v: Arg, colon: string)
    requires |pairs| % 2 == 0
    ensures PairParts(pairs + [k, v], colon) == PairParts(pairs, colon) + [FormatValue(k) + colon + FormatValue(v)]
    decreases |pairs|
  {
    if pairs == [] {
      assert [k, v][2..] == [];
    } else {
      var all := pairs + [k, v];
      assert all[0] == pairs[0] && all[1] == pairs[1] && all[2..] == pairs[2..] + [k, v];
      PairPartsAppend(pairs[2..], k, v, colon);
    }
  }

}
