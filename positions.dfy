/** A place in the input: byte offset and 1-based rune column. */
module Positions {
  import opened Wrappers
  import opened Format
  import opened Strconv

  datatype Position = Position(offset: int, column: int)

  /** Renders as `Col <column> (Offset <offset>)`. */
  function PositionString(p: Position): (s: string)
    ensures s == "Col " + IntToString(p.column) + " (Offset " + IntToString(p.offset) + ")"
    ensures |s| > 15 && s[..4] == "Col " && s[|s| - 1] == ')'
  {
    Render(IntToString(p.column), IntToString(p.offset))
  }

  function Render(column: string, offset: string): string {
    "Col " + (column + (" (Offset " + (offset + ")")))
  }

  /** A numeral holds digits and at most a leading minus sign, never a space, parenthesis or colon. */
  lemma NumeralHasNoSpace(i: int)
    ensures ' ' !in IntToString(i) && ')' !in IntToString(i) && ':' !in IntToString(i)
  {
    var s := IntToString(i);
    if i < 0 {
      assert s == "-" + NatToString(-i);
    }
  }

  /** Splitting `x + y` at the first `c` recovers `x` when `x` has no `c` and `y` starts with it. */
  lemma SplitAtFirst(x: string, y: string, x': string, y': string, c: char)
    requires c !in x && c !in x'
    requires |y| > 0 && |y'| > 0 && y[0] == c && y'[0] == c
    requires x + y == x' + y'
    ensures x == x' && y == y'
  {
    assert x == (x + y)[..|x|];
    assert x' == (x' + y')[..|x'|];
    assert y == (x + y)[|x|..];
    assert y' == (x' + y')[|x'|..];
  }

  /** Strings that both break at their first `sep[0]`, after a common prefix, agree piece by piece. */
  lemma SplitAfterPrefix(pre: string, x: string, y: string, sep: string, m: string, n: string)
    requires |sep| > 0 && sep[0] !in x && sep[0] !in y
    requires pre + x + sep + m == pre + y + sep + n
    ensures x == y && m == n
  {
    assert pre + x + sep + m == pre + (x + (sep + m));
    assert pre + y + sep + n == pre + (y + (sep + n));
    DropPrefix(pre, x + (sep + m), y + (sep + n));
    SplitAtFirst(x, sep + m, y, sep + n, sep[0]);
    DropPrefix(sep, m, n);
  }

  lemma RenderInjective(c: string, o: string, c': string, o': string)
    requires ' ' !in c && ' ' !in c' && ')' !in o && ')' !in o'
    requires Render(c, o) == Render(c', o')
    ensures c == c' && o == o'
  {
    DropPrefix("Col ", c + (" (Offset " + (o + ")")), c' + (" (Offset " + (o' + ")")));
    SplitAtFirst(c, " (Offset " + (o + ")"), c', " (Offset " + (o' + ")"), ' ');
    DropPrefix(" (Offset ", o + ")", o' + ")");
    SplitAtFirst(o, ")", o', ")", ')');
  }

  /** Rendering is injective: the column and offset can be read back from the text. */
  lemma PositionStringInjective(p: Position, q: Position)
    requires PositionString(p) == PositionString(q)
    ensures p == q
  {
    NumeralHasNoSpace(p.column);
    NumeralHasNoSpace(p.offset);
    NumeralHasNoSpace(q.column);
    NumeralHasNoSpace(q.offset);
    RenderInjective(IntToString(p.column), IntToString(p.offset), IntToString(q.column), IntToString(q.offset));
    IntToStringInjective(p.column, q.column);
    IntToStringInjective(p.offset, q.offset);
  }

  /** A rendered position never holds a colon, so a `:` after it marks where it ends. */
  lemma PositionStringHasNoColon(p: Position)
    ensures ':' !in PositionString(p)
  {
    NumeralHasNoSpace(p.column);
    NumeralHasNoSpace(p.offset);
  }

  /**
   * For positions within 64-bit range, the two numerals in the rendering parse back,
   * with Go's `strconv.ParseInt`, to the column and the offset.
   */
  lemma PositionStringReadsBack(p: Position)
    requires MinInt64 <= p.column < Int64Cutoff && MinInt64 <= p.offset < Int64Cutoff
    ensures ParseInt(IntToString(p.column)) == Success(p.column)
    ensures ParseInt(IntToString(p.offset)) == Success(p.offset)
    ensures PositionString(p) == "Col " + IntToString(p.column) + " (Offset " + IntToString(p.offset) + ")"
  {
    ParseIntRoundTrip(p.column);
    ParseIntRoundTrip(p.offset);
  }

  lemma StartPositionString()
    ensures PositionString(Position(0, 1)) == "Col 1 (Offset 0)"
    ensures PositionString(Position(0, 0)) == "Col 0 (Offset 0)"
  {
    assert IntToString(0) == "0" && IntToString(1) == "1";
  }
}
