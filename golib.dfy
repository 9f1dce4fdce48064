/** Option, the shape of Go's nil-or-value and value-or-error returns. */
module Wrappers {

  datatype Option<+T> = None | Some(value: T) {

    /** The value, or `default` when there is none. */
    function GetOr(default: T): T {
      match this
      case Some(v) => v
      case None => default
    }
  }
}

/**
 * The pieces of Go's standard library that the planner and its command line
 * depend on: 64-bit integers, `strconv.ParseInt(s, 10, 64)` and `strconv.Atoi`,
 * decimal formatting (`%d`, `strconv.FormatInt`), the truncating integer
 * division of Go and `strings.Split` / `strings.Join` on a one-character
 * separator, all stated exactly; and fixed-point formatting with two decimals
 * (`%3.2f`) over reals, which rounds exact halves upward where Go rounds the
 * binary `float64` value and sends exact ties to even.
 */
module GoLib {
  import opened Wrappers

  const MinInt64: int := -0x8000_0000_0000_0000
  const MaxInt64: int := 0x7FFF_FFFF_FFFF_FFFF

  /** Go's `int64`; also Go's `int`, which is 64 bits wide on the platforms the tool targets. */
  type int64 = x: int | -0x8000_0000_0000_0000 <= x <= 0x7FFF_FFFF_FFFF_FFFF

  // ---------------------------------------------------------------------------
  // Decimal digits

  predicate IsDigit(c: char) {
    '0' <= c <= '9'
  }

  predicate AllDigits(s: string) {
    forall i :: 0 <= i < |s| ==> IsDigit(s[i])
  }

  function DigitValue(c: char): (d: nat)
    requires IsDigit(c)
    ensures d < 10
  {
    c as int - '0' as int
  }

  function DigitChar(d: nat): (c: char)
    requires d < 10
    ensures IsDigit(c) && DigitValue(c) == d
  {
    ('0' as int + d) as char
  }

  /** The number a run of decimal digits denotes, most significant digit first. */
  function DigitsValue(s: string): nat
    requires AllDigits(s)
  {
    if |s| == 0 then 0 else 10 * DigitsValue(s[..|s| - 1]) + DigitValue(s[|s| - 1])
  }

  // ---------------------------------------------------------------------------
  // Formatting integers: fmt's %d and strconv.FormatInt(n, 10)

  /** The shortest decimal spelling of `n`. */
  function FormatNat(n: nat): (s: string)
    ensures |s| > 0 && AllDigits(s)
    ensures |s| > 1 ==> s[0] != '0'
  {
    if n < 10 then [DigitChar(n)] else FormatNat(n / 10) + [DigitChar(n % 10)]
  }

  /** Decimal spelling of an integer, with a leading `-` exactly when it is negative. */
  function FormatInt(n: int): (s: string)
    ensures |s| > 0 && (s[0] == '-' <==> n < 0)
    ensures n < 0 ==> |s| > 1 && AllDigits(s[1..])
    ensures n >= 0 ==> AllDigits(s)
  {
    if n < 0 then "-" + FormatNat(-n) else FormatNat(n)
  }

  lemma {:induction false} FormatNatValue(n: nat)
    ensures DigitsValue(FormatNat(n)) == n
  {
    if n >= 10 {
      var s := FormatNat(n);
      FormatNatValue(n / 10);
      assert s[..|s| - 1] == FormatNat(n / 10);
    }
  }

  // ---------------------------------------------------------------------------
  // Parsing integers: strconv.ParseInt(s, 10, 64) and strconv.Atoi

  /**
   * An optional `+` or `-` followed by at least one decimal digit, whose value
   * fits in 64 bits; anything else (the empty string, a lone sign, a space, a
   * fraction, an underscore, an out-of-range value) is an error. On a 64-bit
   * platform `strconv.Atoi(s)` accepts and rejects exactly the same strings.
   */
  function ParseInt64(s: string): (r: Option<int64>)
    ensures r.Some? ==> |s| > 0 && forall i :: 0 < i < |s| ==> IsDigit(s[i])
    ensures r.Some? ==> IsDigit(s[0]) || (|s| > 1 && (s[0] == '-' || s[0] == '+'))
    ensures r.Some? && r.value < 0 ==> s[0] == '-'
    ensures |s| > 0 && AllDigits(s) ==>
      r == if DigitsValue(s) <= MaxInt64 then Some(DigitsValue(s)) else None
    ensures |s| > 1 && s[0] == '+' && AllDigits(s[1..]) ==>
      r == if DigitsValue(s[1..]) <= MaxInt64 then Some(DigitsValue(s[1..])) else None
    ensures |s| > 1 && s[0] == '-' && AllDigits(s[1..]) ==>
      r == if DigitsValue(s[1..]) <= -MinInt64 then Some(-(DigitsValue(s[1..]) as int)) else None
  {
    if |s| == 0 then None
    else
      var negative := s[0] == '-';
      var digits := if s[0] == '-' || s[0] == '+' then s[1..] else s;
      if |digits| == 0 || !AllDigits(digits) then None
      else
        var magnitude: int := DigitsValue(digits);
        var v := if negative then -magnitude else magnitude;
        if MinInt64 <= v <= MaxInt64 then Some(v) else None
  }

  /** Signs and leading zeros are accepted; a lone sign or a non-digit is not. */
  lemma ParseExamples()
    ensures ParseInt64("+30") == Some(30) && ParseInt64("030") == Some(30) && ParseInt64("-7") == Some(-7)
    ensures ParseInt64("-") == None && ParseInt64("+") == None && ParseInt64("x") == None
    ensures ParseInt64("") == None && ParseInt64("3 ") == None
  {
    assert "+30"[1..] == "30" && "30"[..1] == "3";
    assert DigitsValue("30") == 30;
    assert "-7"[1..] == "7";
    assert "030"[..2] == "03" && "03"[..1] == "0" && "0"[..0] == "";
    assert DigitsValue("030") == 30;
    assert !IsDigit("3 "[1]);
  }

  /** Parsing what `FormatInt` printed gives the number back. */
  lemma ParseFormatRoundTrip(n: int64)
    ensures ParseInt64(FormatInt(n)) == Some(n)
  {
    var s := FormatInt(n);
    var m: nat := if n < 0 then -(n as int) else n as int;
    var digits := FormatNat(m);
    FormatNatValue(m);
    if n < 0 {
      assert s == "-" + digits;
      assert s[1..] == digits;
    } else {
      assert s == digits;
      assert IsDigit(s[0]);
    }
  }

  // ---------------------------------------------------------------------------
  // Go's integer division truncates toward zero

  function Quo(a: int, b: int): (q: int)
    requires b > 0
    ensures 0 <= a ==> 0 <= q && q * b <= a < q * b + b
    ensures a < 0 ==> q <= 0 && a <= q * b && q * b - b < a
  {
    if a >= 0 then a / b else -((-a) / b)
  }

  // ---------------------------------------------------------------------------
  // strings.Split and strings.Join on a one-character separator

  /** Number of occurrences of `c` in `s`. */
  function Count(s: string, c: char): nat {
    if |s| == 0 then 0 else Count(s[..|s| - 1], c) + (if s[|s| - 1] == c then 1 else 0)
  }

  /** `strings.Split(s, [sep])`: the pieces between separators, one more piece than separators. */
  function Split(s: string, sep: char): (parts: seq<string>)
    ensures |parts| == Count(s, sep) + 1
    ensures forall i :: 0 <= i < |parts| ==> sep !in parts[i]
  {
    if |s| == 0 then [""]
    else
      var rest := Split(s[..|s| - 1], sep);
      if s[|s| - 1] == sep then rest + [""]
      else rest[..|rest| - 1] + [rest[|rest| - 1] + [s[|s| - 1]]]
  }

  /** `strings.Join(parts, [sep])`. */
  function Join(parts: seq<string>, sep: char): string {
    if |parts| == 0 then ""
    else if |parts| == 1 then parts[0]
    else Join(parts[..|parts| - 1], sep) + [sep] + parts[|parts| - 1]
  }

  /**
   * The joined string starts with the first part, followed by the separator
   * when there is more than one part, and ends with the last part.
   */
  lemma {:induction false} JoinEnds(parts: seq<string>, sep: char)
    requires |parts| > 0
    ensures var s := Join(parts, sep);
      && |parts[0]| <= |s| && s[..|parts[0]|] == parts[0]
      && |parts[|parts| - 1]| <= |s| && s[|s| - |parts[|parts| - 1]|..] == parts[|parts| - 1]
      && (|parts| > 1 ==> |parts[0]| < |s| && s[|parts[0]|] == sep)
  {
    if |parts| > 1 {
      var init := parts[..|parts| - 1];
      JoinEnds(init, sep);
      assert init[0] == parts[0];
      var j := Join(init, sep);
      var s := j + [sep] + parts[|parts| - 1];
      assert s[..|parts[0]|] == j[..|parts[0]|];
      if |init| == 1 {
        assert j == parts[0];
      }
    }
  }

  /** Splitting and joining again gives the original string. */
  lemma {:induction false} JoinSplit(s: string, sep: char)
    ensures Join(Split(s, sep), sep) == s
  {
    if |s| > 0 {
      var init := s[..|s| - 1];
      var rest := Split(init, sep);
      JoinSplit(init, sep);
      if s[|s| - 1] == sep {
        assert (rest + [""])[..|rest|] == rest;
      } else {
        var parts := Split(s, sep);
        JoinLastExtended(rest, [s[|s| - 1]], sep);
        assert s == init + [s[|s| - 1]];
      }
    }
  }

  /** Growing the last piece grows the joined string at its end. */
  lemma JoinLastExtended(parts: seq<string>, tail: string, sep: char)
    requires |parts| > 0
    ensures Join(parts[..|parts| - 1] + [parts[|parts| - 1] + tail], sep) == Join(parts, sep) + tail
  {
    var ext := parts[..|parts| - 1] + [parts[|parts| - 1] + tail];
    assert ext[..|ext| - 1] == parts[..|parts| - 1];
  }

  /** A separator followed by a separator-free tail starts exactly one new piece. */
  lemma {:induction false} SplitAppend(t: string, sep: char, u: string)
    requires sep !in u
    ensures Split(t + [sep] + u, sep) == Split(t, sep) + [u]
  {
    if |u| == 0 {
      assert t + [sep] + u == t + [sep];
      assert (t + [sep])[..|t|] == t;
    } else {
      var u' := u[..|u| - 1];
      var whole := t + [sep] + u;
      assert whole[..|whole| - 1] == t + [sep] + u';
      SplitAppend(t, sep, u');
      assert u' + [u[|u| - 1]] == u;
    }
  }

  /** Joining separator-free pieces and splitting again gives the pieces back. */
  lemma {:induction false} SplitJoin(parts: seq<string>, sep: char)
    requires |parts| > 0
    requires forall i :: 0 <= i < |parts| ==> sep !in parts[i]
    ensures Split(Join(parts, sep), sep) == parts
  {
    if |parts| == 1 {
      SplitNoSeparator(parts[0], sep);
    } else {
      var init := parts[..|parts| - 1];
      SplitJoin(init, sep);
      SplitAppend(Join(init, sep), sep, parts[|parts| - 1]);
    }
  }

  /** A string without the separator is a single piece. */
  lemma {:induction false} SplitNoSeparator(s: string, sep: char)
    requires sep !in s
    ensures Split(s, sep) == [s]
  {
    if |s| > 0 {
      SplitNoSeparator(s[..|s| - 1], sep);
      assert s[..|s| - 1] + [s[|s| - 1]] == s;
    }
  }

  // ---------------------------------------------------------------------------
  // fmt's %3.2f over reals

  /** `x` in hundredths, rounded to the nearest, halves upward. */
  function Cents(x: real): (c: int)
    ensures 100.0 * x - 0.5 < c as real <= 100.0 * x + 0.5
  {
    (100.0 * x + 0.5).Floor
  }

  /**
   * `%3.2f`: the value with exactly two decimals. Every rendering has at least
   * four characters, so the minimum width 3 never adds padding.
   */
  function FormatFixed2(x: real): (s: string)
    ensures |s| >= 4 && s[|s| - 3] == '.'
    ensures IsDigit(s[|s| - 2]) && IsDigit(s[|s| - 1])
    ensures (s[0] == '-') <==> x < 0.0
    ensures var start := if x < 0.0 then 1 else 0;
      start < |s| - 3 && forall i :: start <= i < |s| - 3 ==> IsDigit(s[i])
  {
    var c := Cents(if x < 0.0 then -x else x);
    var whole := FormatNat(c / 100);
    (if x < 0.0 then "-" else "") + whole + "." + [DigitChar(c % 100 / 10), DigitChar(c % 10)]
  }

  /**
   * The digits of a `%3.2f` rendering, with the point left out, spell the
   * magnitude in hundredths, rounded.
   */
  lemma FormatFixed2Value(x: real)
    ensures var s := FormatFixed2(x);
      var start := if x < 0.0 then 1 else 0;
      AllDigits(s[start..|s| - 3] + s[|s| - 2..]) &&
      DigitsValue(s[start..|s| - 3] + s[|s| - 2..]) == Cents(if x < 0.0 then -x else x)
  {
    var s := FormatFixed2(x);
    var start := if x < 0.0 then 1 else 0;
    var c := Cents(if x < 0.0 then -x else x);
    var whole := FormatNat(c / 100);
    var a, b := DigitChar(c % 100 / 10), DigitChar(c % 10);
    assert s == (if x < 0.0 then "-" else "") + whole + "." + [a, b];
    assert s[start..|s| - 3] == whole;
    assert s[|s| - 2..] == [a, b];
    FormatNatValue(c / 100);
    var w := whole + [a, b];
    assert w[..|w| - 1] == whole + [a];
    assert (whole + [a])[..|whole|] == whole;
  }
}
