/** Decimal text of integers, as Python's `str(int)` produces it and as
    Python's `int(str)` reads it back (the subset of `int()` the language's
    integer literals use: an optional sign, then digits with single
    underscores between them). Used for line numbers in parser messages and
    for `IntLitExpr`. */
module Numerals {

  import opened Options

  predicate IsDigit(c: char) { '0' <= c <= '9' }

  function DigitChar(d: nat): (c: char)
    requires d < 10
    ensures IsDigit(c) && c as int - '0' as int == d
  {
    (d + '0' as int) as char
  }

  /** `str(n)` for a non-negative integer: no leading zeros, no sign. */
  function NatString(n: nat): (s: string)
    decreases n
  {
    if n < 10 then [DigitChar(n)] else NatString(n / 10) + [DigitChar(n % 10)]
  }

  /** `str(i)` for any integer. */
  function IntString(i: int): string {
    if i < 0 then "-" + NatString(-i) else NatString(i)
  }

  /** The value of `digit ("_"? digit)*`, or None when `s` is not of that form. */
  function DigitRun(s: string): Option<nat>
    decreases |s|
  {
    if |s| == 0 || !IsDigit(s[|s| - 1]) then None
    else
      var d := s[|s| - 1] as int - '0' as int;
      var init := s[..|s| - 1];
      var body := if init != [] && init[|init| - 1] == '_' then init[..|init| - 1] else init;
      if body == [] then
        (if init == [] then Some(d) else None)
      else
        match DigitRun(body)
        case None => None
        case Some(v) => Some(v * 10 + d)
  }

  /** Python's `int(s)` on a decimal literal; None stands for ValueError. */
  function ParseInt(s: string): Option<int> {
    if s != [] && s[0] == '-' then
      match DigitRun(s[1..])
      case None => None
      case Some(v) => Some(0 - v as int)
    else if s != [] && s[0] == '+' then
      match DigitRun(s[1..])
      case None => None
      case Some(v) => Some(v as int)
    else
      match DigitRun(s)
      case None => None
      case Some(v) => Some(v as int)
  }

  /** Every character of `str(n)` is a decimal digit. */
  lemma {:induction false} NatStringDigits(n: nat)
    ensures |NatString(n)| > 0
    ensures forall k :: 0 <= k < |NatString(n)| ==> IsDigit(NatString(n)[k])
    decreases n
  {
    if n >= 10 {
      NatStringDigits(n / 10);
      var s := NatString(n / 10) + [DigitChar(n % 10)];
      assert NatString(n) == s;
      forall k | 0 <= k < |s| ensures IsDigit(s[k]) {
        if k < |NatString(n / 10)| { assert s[k] == NatString(n / 10)[k]; }
      }
    }
  }

  /** Reading back the digits of a natural number gives that number. */
  lemma {:induction false} DigitRunNatString(n: nat)
    ensures DigitRun(NatString(n)) == Some(n)
    decreases n
  {
    var s := NatString(n);
    if n >= 10 {
      var init := NatString(n / 10);
      assert s == init + [DigitChar(n % 10)];
      assert s[..|s| - 1] == init;
      NatStringDigits(n / 10);
      assert init[|init| - 1] != '_';
      DigitRunNatString(n / 10);
    }
  }

  /** `int(str(i)) == i`: the text the rendering produces reads back as the same integer. */
  lemma {:induction false} ParseIntString(i: int)
    ensures ParseInt(IntString(i)) == Some(i)
  {
    if i < 0 {
      var s := "-" + NatString(-i);
      assert s[1..] == NatString(-i);
      DigitRunNatString(-i);
    } else {
      NatStringDigits(i);
      DigitRunNatString(i);
    }
  }
}
