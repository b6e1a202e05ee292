/**
 * Unsigned 16-bit integers as Rust renders them with `format!("{}", n)` and parses
 * them with `u16::from_str` (`str::parse::<u16>`).
 */
module Decimal {
  import opened Wrappers

  /** Rust's `u16`. */
  type u16 = x: int | 0 <= x < 0x1_0000

  const U16_MAX: int := 0xFFFF

  predicate IsDigit(c: char) {
    '0' <= c <= '9'
  }

  predicate AllDigits(s: string) {
    forall i :: 0 <= i < |s| ==> IsDigit(s[i])
  }

  function DigitValue(c: char): (d: nat)
    requires IsDigit(c)
    ensures d < 10
  {
    c as int - '0' as int
  }

  function DigitChar(d: nat): (c: char)
    requires d < 10
    ensures IsDigit(c) && DigitValue(c) == d
  {
    ('0' as int + d) as char
  }

  /** A digit string with no superfluous leading zero: the form `Display` produces. */
  predicate Canonical(s: string) {
    |s| >= 1 && AllDigits(s) && (s[0] != '0' || |s| == 1)
  }

  /** `format!("{}", n)`: base ten, no sign, no leading zeros. */
  function Render(n: nat): (s: string)
    ensures Canonical(s)
    ensures n < 10 <==> |s| == 1
  {
    if n < 10 then [DigitChar(n)] else Render(n / 10) + [DigitChar(n % 10)]
  }

  /** The number a string of digits denotes, most significant digit first. */
  function Value(s: string): nat
    requires AllDigits(s)
  {
    if s == [] then 0 else Value(s[..|s| - 1]) * 10 + DigitValue(s[|s| - 1])
  }

  /**
   * `u16::from_str`: an optional leading `+`, then one or more ASCII digits whose value
   * fits in 16 bits. Leading zeros are accepted; `-`, whitespace and the empty string
   * are not.
   */
  function ParseU16(s: string): (r: Option<u16>)
    ensures r.Some? ==> |s| >= 1 && IsDigit(s[|s| - 1])
    ensures |s| >= 1 && s[0] == '-' ==> r == None
  {
    var digits := if |s| > 0 && s[0] == '+' then s[1..] else s;
    if |digits| == 0 || !AllDigits(digits) then None
    else if Value(digits) <= U16_MAX then Some(Value(digits))
    else None
  }

  /** `ParseU16` as a characterisation: what is accepted, and with which value. */
  lemma ParseU16Iff(s: string)
    ensures ParseU16(s).Some? <==>
              (|s| >= 1 && AllDigits(s) && Value(s) <= U16_MAX) ||
              (|s| >= 2 && s[0] == '+' && AllDigits(s[1..]) && Value(s[1..]) <= U16_MAX)
    ensures ParseU16(s).Some? && s[0] != '+' ==> ParseU16(s).value == Value(s)
    ensures ParseU16(s).Some? && s[0] == '+' ==> ParseU16(s).value == Value(s[1..])
  {
    if |s| > 0 && s[0] == '+' {
      assert !IsDigit(s[0]);
    }
  }

  /** A string that starts with `-`, or holds a whitespace or other non-digit character after the optional sign, is rejected. */
  lemma ParseU16RejectsNonDigit(s: string, i: nat)
    requires i < |s| && !IsDigit(s[i]) && !(i == 0 && s[0] == '+')
    ensures ParseU16(s) == None
  {
    if |s| > 0 && s[0] == '+' {
      assert s[1..][i - 1] == s[i];
    }
  }

  lemma {:induction false} ValueOfRender(n: nat)
    ensures Value(Render(n)) == n
  {
    if n >= 10 {
      var s := Render(n / 10) + [DigitChar(n % 10)];
      assert s[..|s| - 1] == Render(n / 10);
      ValueOfRender(n / 10);
    }
  }

  lemma {:induction false} ValuePositive(s: string)
    requires AllDigits(s) && |s| >= 1 && s[0] != '0'
    ensures Value(s) >= 1
  {
    if |s| > 1 {
      ValuePositive(s[..|s| - 1]);
    }
  }

  /** Every canonical digit string is the rendering of its value. */
  lemma {:induction false} RenderOfValue(s: string)
    requires Canonical(s)
    ensures Render(Value(s)) == s
  {
    if |s| > 1 {
      var t := s[..|s| - 1];
      var d := DigitValue(s[|s| - 1]);
      assert Canonical(t);
      ValuePositive(t);
      RenderOfValue(t);
      var v := Value(s);
      assert v == Value(t) * 10 + d;
      assert v / 10 == Value(t) && v % 10 == d;
      assert DigitChar(d) == s[|s| - 1];
      assert s == t + [s[|s| - 1]];
    }
  }

  /** Parsing undoes rendering: every `u16` rendered by `Display` is accepted back as itself. */
  lemma ParseRender(n: u16)
    ensures ParseU16(Render(n)) == Some(n)
  {
    ValueOfRender(n);
  }

  /** Rendering is injective. */
  lemma RenderInjective(m: nat, n: nat)
    requires Render(m) == Render(n)
    ensures m == n
  {
    ValueOfRender(m);
    ValueOfRender(n);
  }
}
