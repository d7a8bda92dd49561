/**
 * UTF-8 byte widths of runes (section 3 of RFC 3629), which the lexer uses to
 * keep byte offsets next to rune columns.
 */
module Utf8 {

  /** Bytes needed to encode `c`: 1 below U+0080, 2 below U+0800, 3 below U+10000, else 4. */
  function RuneWidth(c: char): (w: nat)
    ensures 1 <= w <= 4
    ensures w == 1 <==> (c as int) < 0x80
  {
    var n := c as int;
    if n < 0x80 then 1 else if n < 0x800 then 2 else if n < 0x10000 then 3 else 4
  }

  /** Length in bytes of the UTF-8 encoding of `s`. */
  function ByteLength(s: seq<char>): nat
  {
    if s == [] then 0 else ByteLength(s[..|s| - 1]) + RuneWidth(s[|s| - 1])
  }

  predicate IsAscii(s: seq<char>) {
    forall i :: 0 <= i < |s| ==> (s[i] as int) < 0x80
  }

  /** Every rune takes one to four bytes, so the byte length brackets the rune count. */
  lemma {:induction false} ByteLengthBounds(s: seq<char>)
    ensures |s| <= ByteLength(s) <= 4 * |s|
    ensures ByteLength(s) == |s| <==> IsAscii(s)
  {
    if s != [] {
      var init := s[..|s| - 1];
      ByteLengthBounds(init);
      if IsAscii(s) {
        assert IsAscii(init) by {
          forall i | 0 <= i < |init| ensures (init[i] as int) < 0x80 {
            assert init[i] == s[i];
          }
        }
      }
      if ByteLength(s) == |s| {
        assert IsAscii(init) && (s[|s| - 1] as int) < 0x80;
        forall i | 0 <= i < |s| ensures (s[i] as int) < 0x80 {
          if i < |s| - 1 { assert s[i] == init[i]; }
        }
      }
    }
  }

  /** Widths add up over concatenation. */
  lemma {:induction false} ByteLengthAppend(a: seq<char>, b: seq<char>)
    ensures ByteLength(a + b) == ByteLength(a) + ByteLength(b)
    decreases |b|
  {
    if b == [] {
      assert a + b == a;
    } else {
      var b' := b[..|b| - 1];
      assert (a + b)[..|a + b| - 1] == a + b';
      assert (a + b)[|a + b| - 1] == b[|b| - 1];
      ByteLengthAppend(a, b');
    }
  }

  /** Bytes taken by the first `i` runes of `s`: the byte offset of rune `i`. */
  function PrefixWidth(s: seq<char>, i: nat): (w: nat)
    requires i <= |s|
    ensures i <= w
  {
    if i == 0 then 0 else PrefixWidth(s, i - 1) + RuneWidth(s[i - 1])
  }

  /** The offset of rune `i` is the byte length of the runes before it. */
  lemma {:induction false} PrefixWidthIsByteLength(s: seq<char>, i: nat)
    requires i <= |s|
    ensures PrefixWidth(s, i) == ByteLength(s[..i])
  {
    if i > 0 {
      PrefixWidthIsByteLength(s, i - 1);
      assert s[..i][..i - 1] == s[..i - 1];
    }
  }

  /** A longer prefix of a text takes strictly more bytes. */
  lemma {:induction false} PrefixWidthIncreasing(s: seq<char>, i: nat, j: nat)
    requires i < j <= |s|
    ensures PrefixWidth(s, i) < PrefixWidth(s, j)
    decreases j - i
  {
    if i + 1 < j {
      PrefixWidthIncreasing(s, i, j - 1);
    }
  }
}
