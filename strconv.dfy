/**
 * Go's `strconv.ParseUint(s, 0, 64)` and `strconv.ParseInt(s, 0, 64)`, the
 * parsers behind `ToInt` and `ToUint`, as digit-folding functions with the
 * 64-bit bounds written out. Base 0 means the base comes from the literal's
 * prefix (`0b`, `0o`, `0x`, or a bare leading `0` for octal) and `_` may
 * separate digits.
 *
 * The reference they are proved against is the "Integer literals" grammar of
 * The Go Programming Language Specification, transcribed in `IsIntLit`, with
 * the positional value `ValueOf`.
 */
module Strconv {
  import opened Wrappers
  import opened Format

  datatype NumErrorKind = ErrSyntax | ErrRange

  /** `*strconv.NumError`: the function that failed, its input and the cause. */
  datatype NumError = NumError(func: string, num: string, err: NumErrorKind)

  const MaxUint64: nat := 0xFFFF_FFFF_FFFF_FFFF
  const Int64Cutoff: nat := 0x8000_0000_0000_0000
  const MinInt64: int := -0x8000_0000_0000_0000

  /** Go's `lower`: folds ASCII upper case onto lower case; every test it feeds sees the same answer. */
  function Lower(c: char): char {
    if 'A' <= c <= 'Z' then (c as int + 32) as char else c
  }

  /** The value of a digit in any base up to 36, or None for a character that is no digit. */
  function DigitValue(c: char): (r: Option<nat>)
    ensures r.Some? ==> r.value < 36
  {
    if '0' <= c <= '9' then Some(c as int - '0' as int)
    else if 'a' <= Lower(c) <= 'z' then Some(Lower(c) as int - 'a' as int + 10)
    else None
  }

  predicate ValidDigit(c: char, base: nat) {
    DigitValue(c).Some? && DigitValue(c).value < base
  }

  predicate DigitsOrUnderscores(t: string, base: nat) {
    forall i :: 0 <= i < |t| ==> t[i] == '_' || ValidDigit(t[i], base)
  }

  // ---------------------------------------------------------------------------
  // The reference: the Go grammar for integer literals and their value.

  /** `{ [ "_" ] digit }`: the rest of a digit run, each `_` between two digits. */
  predicate DigitTail(v: string, base: nat)
    decreases |v|
  {
    v == []
    || (ValidDigit(v[0], base) && DigitTail(v[1..], base))
    || (|v| >= 2 && v[0] == '_' && ValidDigit(v[1], base) && DigitTail(v[2..], base))
  }

  /** `digit { [ "_" ] digit }`, as `decimal_digits`, `hex_digits` and the others. */
  predicate DigitRun(u: string, base: nat) {
    |u| >= 1 && ValidDigit(u[0], base) && DigitTail(u[1..], base)
  }

  /** `[ "_" ] digits`, what follows a base prefix. */
  predicate PrefixedDigits(u: string, base: nat) {
    DigitRun(u, base) || (|u| >= 1 && u[0] == '_' && DigitRun(u[1..], base))
  }

  /** The prefix of a binary, explicit octal or hex literal, and its base. */
  function BasePrefix(c: char): Option<nat> {
    if c == 'b' || c == 'B' then Some(2)
    else if c == 'o' || c == 'O' then Some(8)
    else if c == 'x' || c == 'X' then Some(16)
    else None
  }

  /**
   * `int_lit`: `"0"`, a decimal literal not starting with 0, a prefixed binary,
   * octal or hex literal, or a legacy octal literal `0[_]digits`.
   */
  predicate IsIntLit(s: string) {
    s == "0"
    || (|s| >= 1 && '1' <= s[0] <= '9' && DigitRun(s, 10))
    || (|s| >= 2 && s[0] == '0' && BasePrefix(s[1]).Some? && PrefixedDigits(s[2..], BasePrefix(s[1]).value))
    || (|s| >= 2 && s[0] == '0' && PrefixedDigits(s[1..], 8))
  }

  /** Positional value of digits in `base`, separators ignored: last digit weighs 1. */
  function ValueOf(t: string, base: nat): nat
    requires DigitsOrUnderscores(t, base)
  {
    if t == [] then 0
    else
      var init := t[..|t| - 1];
      assert DigitsOrUnderscores(init, base) by {
        forall i | 0 <= i < |init| ensures init[i] == '_' || ValidDigit(init[i], base) {
          assert init[i] == t[i];
        }
      }
      if t[|t| - 1] == '_' then ValueOf(init, base)
      else ValueOf(init, base) * base + DigitValue(t[|t| - 1]).value
  }

  /** The base of a literal and its digits, prefix removed; their `ValueOf` is the literal's value. */
  function LiteralParts(s: string): (r: (nat, string))
    requires IsIntLit(s)
    ensures 2 <= r.0 && DigitsOrUnderscores(r.1, r.0)
  {
    if s == "0" then (8, "")
    else if s[0] != '0' then AllDigitsFromTail(s, 10); (10, s)
    else if BasePrefix(s[1]).Some? && PrefixedDigits(s[2..], BasePrefix(s[1]).value) then
      PrefixedDigitsChars(s[2..], BasePrefix(s[1]).value); (BasePrefix(s[1]).value, s[2..])
    else PrefixedDigitsChars(s[1..], 8); (8, s[1..])
  }

  function LiteralValue(s: string): nat
    requires IsIntLit(s)
  {
    ValueOf(LiteralParts(s).1, LiteralParts(s).0)
  }

  // ---------------------------------------------------------------------------
  // The parser as written: prefix selection, digit folding, separator check.

  datatype Fold = Folded(n: nat, sawUnderscore: bool) | BadDigit | Overflow

  /** The digit loop: `_` is skipped and noted, a bad digit stops it, so does an overflow. */
  function Accumulate(t: string, base: nat, n: nat, underscores: bool): Fold
    requires 2 <= base <= 36
    decreases |t|
  {
    if t == [] then Folded(n, underscores)
    else if t[0] == '_' then Accumulate(t[1..], base, n, true)
    else match DigitValue(t[0])
      case None => BadDigit
      case Some(d) =>
        if d >= base then BadDigit
        else if n >= MaxUint64 / base + 1 then Overflow
        else if n * base + d > MaxUint64 then Overflow
        else Accumulate(t[1..], base, n * base + d, underscores)
  }

  /** What `underscoreOK` remembers about the previous character. */
  datatype Saw = Begin | Digit | Underscore | Other

  function ScanSeparators(s: string, i: nat, hex: bool, saw: Saw): bool
    decreases |s| - i
  {
    if i >= |s| then saw != Underscore
    else if '0' <= s[i] <= '9' || (hex && 'a' <= Lower(s[i]) <= 'f') then ScanSeparators(s, i + 1, hex, Digit)
    else if s[i] == '_' then saw == Digit && ScanSeparators(s, i + 1, hex, Underscore)
    else if saw == Underscore then false
    else ScanSeparators(s, i + 1, hex, Other)
  }

  /** Go's `underscoreOK`: every `_` sits between digits, a base prefix counting as one. */
  function UnderscoreOK(s: string): bool {
    var t := if |s| >= 1 && (s[0] == '-' || s[0] == '+') then s[1..] else s;
    if |t| >= 2 && t[0] == '0' && (Lower(t[1]) == 'b' || Lower(t[1]) == 'o' || Lower(t[1]) == 'x') then
      ScanSeparators(t, 2, Lower(t[1]) == 'x', Digit)
    else
      ScanSeparators(t, 0, false, Begin)
  }

  /** Base 0 picks the base from the prefix; three characters are needed for `0b`, `0o`, `0x`. */
  function SelectBase(s: string): (r: (nat, string))
    requires |s| >= 1
    ensures 2 <= r.0 <= 16
  {
    if s[0] != '0' then (10, s)
    else if |s| >= 3 && Lower(s[1]) == 'b' then (2, s[2..])
    else if |s| >= 3 && Lower(s[1]) == 'o' then (8, s[2..])
    else if |s| >= 3 && Lower(s[1]) == 'x' then (16, s[2..])
    else (8, s[1..])
  }

  function ParseUint(s: string): (r: Result<nat, NumError>)
    ensures r.Success? ==> r.value <= MaxUint64
    ensures r.Failure? ==> r.error.func == "ParseUint" && r.error.num == s
  {
    if s == [] then Failure(NumError("ParseUint", s, ErrSyntax))
    else
      var (base, digits) := SelectBase(s);
      match Accumulate(digits, base, 0, false)
      case BadDigit => Failure(NumError("ParseUint", s, ErrSyntax))
      case Overflow => Failure(NumError("ParseUint", s, ErrRange))
      case Folded(n, underscores) =>
        if underscores && !UnderscoreOK(s) then Failure(NumError("ParseUint", s, ErrSyntax))
        else AccumulateBounded(digits, base, 0, false); Success(n)
  }

  /** An optional sign, then `ParseUint` on the rest, then the signed 64-bit range check. */
  function ParseInt(s: string): (r: Result<int, NumError>)
    ensures r.Success? ==> MinInt64 <= r.value < Int64Cutoff
    ensures r.Failure? ==> r.error.func == "ParseInt" && r.error.num == s
  {
    if s == [] then Failure(NumError("ParseInt", s, ErrSyntax))
    else
      var neg := s[0] == '-';
      var rest := if s[0] == '+' || s[0] == '-' then s[1..] else s;
      var u := ParseUint(rest);
      if u.Failure? && u.error.err != ErrRange then Failure(NumError("ParseInt", s, u.error.err))
      else
        // A range error from ParseUint comes with the largest value, which fails the checks below.
        var un := if u.Success? then u.value else MaxUint64;
        if !neg && un >= Int64Cutoff then Failure(NumError("ParseInt", s, ErrRange))
        else if neg && un > Int64Cutoff then Failure(NumError("ParseInt", s, ErrRange))
        else var v: int := if neg then -un else un; Success(v)
  }

  // ---------------------------------------------------------------------------
  // The digit loop computes the positional value.

  lemma AccumulateBounded(t: string, base: nat, n: nat, u: bool)
    requires 2 <= base <= 36 && n <= MaxUint64
    ensures Accumulate(t, base, n, u).Folded? ==> Accumulate(t, base, n, u).n <= MaxUint64
    decreases |t|
  {
    if t != [] && t[0] == '_' {
      AccumulateBounded(t[1..], base, n, true);
    } else if t != [] && DigitValue(t[0]).Some? {
      var d := DigitValue(t[0]).value;
      if d < base && n * base + d <= MaxUint64 {
        AccumulateBounded(t[1..], base, n * base + d, u);
      }
    }
  }

  /** The cutoff test only fires when the product would exceed the bound anyway. */
  lemma CutoffImpliesOverflow(n: nat, base: nat)
    requires 2 <= base && n >= MaxUint64 / base + 1
    ensures n * base > MaxUint64
  {
    var q := MaxUint64 / base;
    assert MaxUint64 == q * base + MaxUint64 % base;
    assert n * base >= (q + 1) * base;
  }

  predicate PrefixOK(t: string, k: nat, base: nat)
    requires k <= |t|
  {
    DigitsOrUnderscores(t[..k], base) && ValueOf(t[..k], base) <= MaxUint64
  }

  lemma PrefixOKShrinks(t: string, k: nat, base: nat)
    requires 2 <= base && k < |t| && PrefixOK(t, k + 1, base)
    ensures PrefixOK(t, k, base)
  {
    var p := t[..k + 1];
    assert p[..|p| - 1] == t[..k];
    assert DigitsOrUnderscores(t[..k], base) by {
      forall i | 0 <= i < k ensures t[..k][i] == '_' || ValidDigit(t[..k][i], base) {
        assert t[..k][i] == p[i];
      }
    }
  }

  /** Folding the first `k` characters leaves their positional value in the accumulator. */
  lemma {:induction false} AccumulateSplit(t: string, k: nat, base: nat)
    requires 2 <= base <= 36 && k <= |t| && PrefixOK(t, k, base)
    ensures Accumulate(t, base, 0, false) == Accumulate(t[k..], base, ValueOf(t[..k], base), '_' in t[..k])
  {
    if k == 0 {
      assert t[..0] == [] && t[0..] == t;
    } else {
      PrefixOKShrinks(t, k - 1, base);
      AccumulateSplit(t, k - 1, base);
      var p := t[..k];
      assert p[..|p| - 1] == t[..k - 1] && p[|p| - 1] == t[k - 1];
      assert t[k - 1..][1..] == t[k..];
      assert ('_' in t[..k]) == ('_' in t[..k - 1] || t[k - 1] == '_') by {
        assert t[..k] == t[..k - 1] + [t[k - 1]];
      }
      if t[k - 1] != '_' {
        var v := ValueOf(t[..k - 1], base);
        var d := DigitValue(t[k - 1]).value;
        assert ValueOf(t[..k], base) == v * base + d;
        if v >= MaxUint64 / base + 1 {
          CutoffImpliesOverflow(v, base);
          assert false;
        }
      }
    }
  }

  lemma PrefixOKStart(t: string, base: nat)
    ensures PrefixOK(t, 0, base)
  {
    assert t[..0] == [];
  }

  /** Below the first position where the prefix stops being valid, there is one; else the whole string is valid. */
  lemma {:induction false} FirstBadPrefix(t: string, k: nat, base: nat) returns (j: nat)
    requires 2 <= base && k <= |t| && PrefixOK(t, k, base) && !PrefixOK(t, |t|, base)
    ensures k <= j < |t| && PrefixOK(t, j, base) && !PrefixOK(t, j + 1, base)
    decreases |t| - k
  {
    if PrefixOK(t, k + 1, base) {
      j := FirstBadPrefix(t, k + 1, base);
    } else {
      j := k;
    }
  }

  /** The fold succeeds exactly when every character is a digit or `_` and the value fits. */
  lemma AccumulateCorrect(t: string, base: nat)
    requires 2 <= base <= 36
    ensures Accumulate(t, base, 0, false).Folded? <==> PrefixOK(t, |t|, base)
    ensures PrefixOK(t, |t|, base) ==>
      Accumulate(t, base, 0, false) == Folded(ValueOf(t, base), '_' in t)
  {
    assert t[..|t|] == t;
    if PrefixOK(t, |t|, base) {
      AccumulateSplit(t, |t|, base);
    } else {
      PrefixOKStart(t, base);
      var j := FirstBadPrefix(t, 0, base);
      AccumulateSplit(t, j, base);
      var v := ValueOf(t[..j], base);
      var p := t[..j + 1];
      assert p[..|p| - 1] == t[..j] && p[|p| - 1] == t[j];
      assert t[j..][0] == t[j];
      if t[j] == '_' {
        assert DigitsOrUnderscores(p, base) by {
          forall i | 0 <= i < |p| ensures p[i] == '_' || ValidDigit(p[i], base) {
            if i < j { assert p[i] == t[..j][i]; }
          }
        }
        assert false;
      } else if ValidDigit(t[j], base) {
        assert DigitsOrUnderscores(p, base) by {
          forall i | 0 <= i < |p| ensures p[i] == '_' || ValidDigit(p[i], base) {
            if i < j { assert p[i] == t[..j][i]; }
          }
        }
        assert ValueOf(p, base) == v * base + DigitValue(t[j]).value;
      }
    }
  }

  // ---------------------------------------------------------------------------
  // The separator check agrees with the grammar.

  /** On digits and separators, the digit test of `underscoreOK` is "not a separator". */
  predicate ScanDigitsAgree(s: string, i: nat, hex: bool, base: nat) {
    (hex <==> base == 16) && (2 <= base <= 10 || base == 16) &&
    forall k :: i <= k < |s| ==> (s[k] == '_' || ValidDigit(s[k], base))
  }

  lemma ScanDigitTest(c: char, hex: bool, base: nat)
    requires (hex <==> base == 16) && (2 <= base <= 10 || base == 16)
    requires c == '_' || ValidDigit(c, base)
    ensures ('0' <= c <= '9' || (hex && 'a' <= Lower(c) <= 'f')) <==> c != '_'
  {
  }

  lemma {:induction false} ScanAfterDigit(s: string, i: nat, hex: bool, base: nat)
    requires i <= |s| && ScanDigitsAgree(s, i, hex, base)
    ensures ScanSeparators(s, i, hex, Digit) <==> DigitTail(s[i..], base)
    ensures ScanSeparators(s, i, hex, Underscore) <==> (i < |s| && ValidDigit(s[i], base) && DigitTail(s[i + 1..], base))
    decreases |s| - i
  {
    if i < |s| {
      ScanDigitTest(s[i], hex, base);
      ScanAfterDigit(s, i + 1, hex, base);
      assert s[i..][1..] == s[i + 1..];
      if i + 1 < |s| {
        ScanDigitTest(s[i + 1], hex, base);
        assert s[i..][2..] == s[i + 2..];
        assert s[i + 1..][1..] == s[i + 2..];
        ScanAfterDigit(s, i + 2, hex, base);
      }
    }
  }

  lemma ScanFromBegin(s: string, i: nat, hex: bool, base: nat)
    requires i < |s| && ScanDigitsAgree(s, i, hex, base)
    ensures ScanSeparators(s, i, hex, Begin) <==> (ValidDigit(s[i], base) && DigitTail(s[i + 1..], base))
  {
    ScanDigitTest(s[i], hex, base);
    ScanAfterDigit(s, i + 1, hex, base);
  }

  /** Without any `_`, every digit string is a digit tail. */
  lemma {:induction false} TailWithoutSeparators(v: string, base: nat)
    requires forall k :: 0 <= k < |v| ==> ValidDigit(v[k], base)
    ensures DigitTail(v, base)
    decreases |v|
  {
    if v != [] {
      TailWithoutSeparators(v[1..], base);
    }
  }

  lemma {:induction false} DigitTailChars(v: string, base: nat)
    requires DigitTail(v, base)
    ensures DigitsOrUnderscores(v, base)
    decreases |v|
  {
    if v != [] {
      if ValidDigit(v[0], base) && DigitTail(v[1..], base) {
        DigitTailChars(v[1..], base);
        assert forall k :: 1 <= k < |v| ==> v[k] == v[1..][k - 1];
      } else {
        DigitTailChars(v[2..], base);
        assert forall k :: 2 <= k < |v| ==> v[k] == v[2..][k - 2];
      }
    }
  }

  // ---------------------------------------------------------------------------
  // ParseUint accepts exactly the Go integer literals whose value fits in 64 bits.

  lemma AllDigitsFromTail(u: string, base: nat)
    requires |u| >= 1 && (u[0] == '_' || ValidDigit(u[0], base)) && DigitTail(u[1..], base)
    ensures DigitsOrUnderscores(u, base)
  {
    DigitTailChars(u[1..], base);
    assert forall k :: 1 <= k < |u| ==> u[k] == u[1..][k - 1];
  }

  lemma PrefixedDigitsChars(u: string, base: nat)
    requires PrefixedDigits(u, base)
    ensures DigitsOrUnderscores(u, base)
  {
    if DigitRun(u, base) {
      AllDigitsFromTail(u, base);
    } else {
      assert u[1..][1..] == u[2..];
      AllDigitsFromTail(u[1..], base);
      AllDigitsFromTail(u, base);
    }
  }

  lemma ParseUintUnfold(s: string)
    requires |s| >= 1
    ensures var (base, t) := SelectBase(s);
      var f := Accumulate(t, base, 0, false);
      (ParseUint(s).Success? <==> f.Folded? && (!f.sawUnderscore || UnderscoreOK(s))) &&
      (ParseUint(s).Success? ==> ParseUint(s).value == f.n)
  {
  }

  lemma DigitsSuffix(s: string, i: nat, base: nat)
    requires i <= |s| && DigitsOrUnderscores(s[i..], base)
    ensures forall k :: i <= k < |s| ==> s[k] == '_' || ValidDigit(s[k], base)
  {
    assert forall k :: i <= k < |s| ==> s[k] == s[i..][k - i];
  }

  /** `[_] digits` after `i` is what `underscoreOK` checks once it has seen a digit or a prefix. */
  lemma PrefixedDigitsScan(s: string, i: nat, hex: bool, base: nat)
    requires i < |s| && (hex <==> base == 16) && (2 <= base <= 10 || base == 16)
    ensures PrefixedDigits(s[i..], base) <==>
      DigitsOrUnderscores(s[i..], base) && ScanSeparators(s, i, hex, Digit)
  {
    var u := s[i..];
    assert u[1..] == s[i + 1..];
    if PrefixedDigits(u, base) {
      if DigitRun(u, base) {
        AllDigitsFromTail(u, base);
      } else {
        assert u[1..][1..] == u[2..];
        AllDigitsFromTail(u[1..], base);
        AllDigitsFromTail(u, base);
      }
    }
    if DigitsOrUnderscores(u, base) {
      DigitsSuffix(s, i, base);
      ScanAfterDigit(s, i, hex, base);
      ScanAfterDigit(s, i + 1, hex, base);
      if i + 2 <= |s| {
        assert u[1..][1..] == u[2..] && s[i + 1..][1..] == s[i + 2..];
        assert u[2..] == s[i + 2..];
      }
    }
  }

  /** For a decimal literal, `IsIntLit` is the `DigitRun` alternative alone. */
  lemma DecimalLiteral(s: string)
    requires |s| >= 1 && s[0] != '0'
    ensures IsIntLit(s) <==> DigitRun(s, 10)
  {
  }

  lemma ParseUintDecimal(s: string)
    requires |s| >= 1 && s[0] != '0'
    ensures ParseUint(s).Success? <==> IsIntLit(s) && DigitsOrUnderscores(s, 10) && ValueOf(s, 10) <= MaxUint64
    ensures ParseUint(s).Success? ==> ParseUint(s).value == ValueOf(s, 10)
  {
    ParseUintUnfold(s);
    assert SelectBase(s) == (10, s);
    AccumulateCorrect(s, 10);
    assert s[..|s|] == s;
    DecimalLiteral(s);
    if DigitsOrUnderscores(s, 10) {
      DigitsSuffix(s, 0, 10);
      ScanFromBegin(s, 0, false, 10);
      if '_' !in s {
        TailWithoutSeparators(s[1..], 10);
        assert DigitRun(s, 10);
      }
      assert UnderscoreOK(s) == ScanSeparators(s, 0, false, Begin);
    }
    if DigitRun(s, 10) {
      AllDigitsFromTail(s, 10);
    }
  }

  lemma ParseUintPrefixed(s: string)
    requires |s| >= 3 && s[0] == '0' && BasePrefix(s[1]).Some?
    ensures var base := BasePrefix(s[1]).value;
      (ParseUint(s).Success? <==>
        IsIntLit(s) && DigitsOrUnderscores(s[2..], base) && ValueOf(s[2..], base) <= MaxUint64) &&
      (ParseUint(s).Success? ==> ParseUint(s).value == ValueOf(s[2..], base))
  {
    ParseUintUnfold(s);
    var base := BasePrefix(s[1]).value;
    var t := s[2..];
    assert SelectBase(s) == (base, t);
    AccumulateCorrect(t, base);
    assert t[..|t|] == t;
    PrefixedDigitsScan(s, 2, base == 16, base);
    assert UnderscoreOK(s) == ScanSeparators(s, 2, base == 16, Digit);
    if DigitsOrUnderscores(t, base) && '_' !in t {
      TailWithoutSeparators(t[1..], base);
      assert t[1..] == s[3..];
    }
    // The legacy octal reading of the same text fails: its first digit is the prefix letter.
    assert !PrefixedDigits(s[1..], 8);
  }

  lemma ParseUintLegacyOctal(s: string)
    requires |s| >= 1 && s[0] == '0' && !(|s| >= 3 && BasePrefix(s[1]).Some?)
    ensures ParseUint(s).Success? <==>
      IsIntLit(s) && DigitsOrUnderscores(s[1..], 8) && ValueOf(s[1..], 8) <= MaxUint64
    ensures ParseUint(s).Success? ==> ParseUint(s).value == ValueOf(s[1..], 8)
  {
    ParseUintUnfold(s);
    var t := s[1..];
    assert SelectBase(s) == (8, t);
    AccumulateCorrect(t, 8);
    assert t[..|t|] == t;
    if |s| >= 2 {
      PrefixedDigitsScan(s, 1, false, 8);
      if DigitsOrUnderscores(t, 8) && '_' !in t {
        TailWithoutSeparators(t[1..], 8);
        assert t[1..] == s[2..];
      }
      if DigitsOrUnderscores(t, 8) {
        DigitsSuffix(s, 1, 8);
        ScanFromBegin(s, 0, false, 8);
        assert UnderscoreOK(s) == ScanSeparators(s, 0, false, Begin);
      }
      if |s| == 2 && BasePrefix(s[1]).Some? {
        assert !PrefixedDigits(s[2..], BasePrefix(s[1]).value);
      }
    } else {
      assert s == "0";
    }
  }

  /**
   * `ParseUint` succeeds exactly on the integer literals of the Go grammar whose
   * value is at most 2^64-1, and returns that value.
   */
  lemma ParseUintMatchesGrammar(s: string)
    ensures ParseUint(s).Success? <==> IsIntLit(s) && LiteralValue(s) <= MaxUint64
    ensures ParseUint(s).Success? ==> ParseUint(s).value == LiteralValue(s)
  {
    if s == [] {
    } else if s[0] != '0' {
      ParseUintDecimal(s);
    } else if |s| >= 3 && BasePrefix(s[1]).Some? {
      ParseUintPrefixed(s);
    } else {
      ParseUintLegacyOctal(s);
      if IsIntLit(s) && |s| >= 2 && BasePrefix(s[1]).Some? {
        assert !PrefixedDigits(s[2..], BasePrefix(s[1]).value);
      }
    }
  }

  /** `ParseInt` accepts an optional sign before a literal and the signed value must fit in 64 bits. */
  lemma ParseIntMatchesGrammar(s: string)
    ensures var neg := |s| > 0 && s[0] == '-';
      var rest := if |s| > 0 && (s[0] == '+' || s[0] == '-') then s[1..] else s;
      (ParseInt(s).Success? <==>
        IsIntLit(rest) && LiteralValue(rest) <= MaxUint64 &&
        (if neg then LiteralValue(rest) <= Int64Cutoff else LiteralValue(rest) < Int64Cutoff)) &&
      (ParseInt(s).Success? ==> ParseInt(s).value == (if neg then -1 else 1) * LiteralValue(rest))
  {
    if |s| > 0 {
      var rest := if s[0] == '+' || s[0] == '-' then s[1..] else s;
      ParseUintMatchesGrammar(rest);
    }
  }

  // ---------------------------------------------------------------------------
  // Round trips with decimal rendering, and the documented examples.

  lemma {:induction false} DecimalValue(n: nat)
    ensures DigitsOrUnderscores(NatToString(n), 10)
    ensures ValueOf(NatToString(n), 10) == n
  {
    var s := NatToString(n);
    assert DigitsOrUnderscores(s, 10) by {
      forall i | 0 <= i < |s| ensures s[i] == '_' || ValidDigit(s[i], 10) {
        assert '0' <= s[i] <= '9';
      }
    }
    if n >= 10 {
      DecimalValue(n / 10);
      assert s[..|s| - 1] == NatToString(n / 10);
    }
  }

  /** Every numeral `%d` prints for a natural number is an integer literal denoting that number. */
  lemma NatToStringIsLiteral(n: nat)
    ensures IsIntLit(NatToString(n)) && LiteralValue(NatToString(n)) == n
  {
    var s := NatToString(n);
    DecimalValue(n);
    if n > 0 {
      TailWithoutSeparators(s[1..], 10);
      assert DigitRun(s, 10);
    }
  }

  /** Printing a 64-bit unsigned value and parsing it back gives the value. */
  lemma ParseUintRoundTrip(n: nat)
    requires n <= MaxUint64
    ensures ParseUint(NatToString(n)) == Success(n)
  {
    NatToStringIsLiteral(n);
    ParseUintMatchesGrammar(NatToString(n));
  }

  /** Printing a 64-bit signed value and parsing it back gives the value. */
  lemma ParseIntRoundTrip(i: int)
    requires MinInt64 <= i < Int64Cutoff
    ensures ParseInt(IntToString(i)) == Success(i)
  {
    var s := IntToString(i);
    if i < 0 {
      ParseUintRoundTrip(-i);
      assert s[1..] == NatToString(-i);
    } else {
      ParseUintRoundTrip(i);
    }
  }

  lemma AccumulateDigit(t: string, base: nat, n: nat, d: nat)
    requires 2 <= base <= 36 && t != [] && t[0] != '_' && DigitValue(t[0]) == Some(d) && d < base
    requires n * base + d <= MaxUint64
    ensures Accumulate(t, base, n, false) == Accumulate(t[1..], base, n * base + d, false)
  {
    if n >= MaxUint64 / base + 1 {
      CutoffImpliesOverflow(n, base);
    }
  }

  lemma ParseUintOfFold(s: string, n: nat)
    requires |s| >= 1 && Accumulate(SelectBase(s).1, SelectBase(s).0, 0, false) == Folded(n, false)
    ensures ParseUint(s) == Success(n)
  {
  }

  lemma HexExample()
    ensures ParseUint("0x23") == Success(35) && ParseInt("0x23") == Success(35)
  {
    assert SelectBase("0x23") == (16, "23");
    AccumulateDigit("23", 16, 0, 2);
    AccumulateDigit("3", 16, 2, 3);
    ParseUintOfFold("0x23", 35);
  }

  lemma OctalExample()
    ensures ParseUint("0o644") == Success(420)
  {
    assert SelectBase("0o644") == (8, "644");
    AccumulateDigit("644", 8, 0, 6);
    AccumulateDigit("44", 8, 6, 4);
    AccumulateDigit("4", 8, 52, 4);
    ParseUintOfFold("0o644", 420);
  }

  lemma BinaryLeadingDigits()
    ensures Accumulate("01100101", 2, 0, false) == Accumulate("100101", 2, 1, false)
  {
    AccumulateDigit("01100101", 2, 0, 0);
    AccumulateDigit("1100101", 2, 0, 1);
  }

  lemma BinaryMiddleDigits()
    ensures Accumulate("100101", 2, 1, false) == Accumulate("0101", 2, 6, false)
  {
    AccumulateDigit("100101", 2, 1, 1);
    AccumulateDigit("00101", 2, 3, 0);
  }

  lemma BinaryLowDigits()
    ensures Accumulate("0101", 2, 6, false) == Folded(101, false)
  {
    AccumulateDigit("0101", 2, 6, 0);
    AccumulateDigit("101", 2, 12, 1);
    AccumulateDigit("01", 2, 25, 0);
    AccumulateDigit("1", 2, 50, 1);
  }

  lemma BinaryExample()
    ensures ParseUint("0b01100101") == Success(101)
  {
    assert SelectBase("0b01100101") == (2, "01100101");
    BinaryLeadingDigits();
    BinaryMiddleDigits();
    BinaryLowDigits();
    ParseUintOfFold("0b01100101", 101);
  }

  lemma DecimalExamples()
    ensures ParseUint("23") == Success(23) && ParseInt("23") == Success(23)
    ensures ParseInt("-42") == Success(-42)
  {
    assert SelectBase("23") == (10, "23");
    AccumulateDigit("23", 10, 0, 2);
    AccumulateDigit("3", 10, 2, 3);
    ParseUintOfFold("23", 23);
    assert SelectBase("42") == (10, "42");
    AccumulateDigit("42", 10, 0, 4);
    AccumulateDigit("2", 10, 4, 2);
    ParseUintOfFold("42", 42);
    assert "-42"[1..] == "42";
  }

  lemma SignRejectedByParseUint()
    ensures ParseUint("-42") == Failure(NumError("ParseUint", "-42", ErrSyntax))
  {
    assert SelectBase("-42") == (10, "-42");
  }

  lemma FractionRejected()
    ensures ParseInt("3.14").Failure? && ParseUint("3.14").Failure?
  {
    assert SelectBase("3.14") == (10, "3.14");
    AccumulateDigit("3.14", 10, 0, 3);
  }

  lemma SeparatorExamples()
    ensures ParseUint("1_000") == Success(1000)
    ensures ParseUint("1__0").Failure?
  {
    assert SelectBase("1_000") == (10, "1_000");
    assert DigitValue('1') == Some(1);
    assert Accumulate("1_000", 10, 0, false) == Folded(1000, true);
    assert UnderscoreOK("1_000");
    assert SelectBase("1__0") == (10, "1__0");
    assert Accumulate("1__0", 10, 0, false) == Folded(10, true);
    assert !UnderscoreOK("1__0");
  }
}
