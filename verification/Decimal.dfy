/** Decimal rendering and parsing of unsigned integers, and the delivery token text built from it. */
module Decimal {
  import opened Prelude

  function Digit(d: nat): (c: char)
    requires d < 10
  {
    (d + '0' as int) as char
  }

  predicate IsDigit(c: char) {
    '0' <= c <= '9'
  }

  function DigitValue(c: char): (d: nat)
    requires IsDigit(c)
    ensures d < 10
  {
    c as int - '0' as int
  }

  /** `usize::to_string`. */
  function ToText(n: nat): (s: string) {
    if n < 10 then [Digit(n)] else ToText(n / 10) + [Digit(n % 10)]
  }

  predicate AllDigits(s: string) {
    forall i | 0 <= i < |s| :: IsDigit(s[i])
  }

  function DigitsValue(s: string): (n: nat)
    requires AllDigits(s)
  {
    if s == "" then 0 else 10 * DigitsValue(s[..|s| - 1]) + DigitValue(s[|s| - 1])
  }

  /** `usize::from_str`: an optional plus sign, at least one digit, digits only, no overflow. */
  function ParseUsize(s: string): (r: Option<nat>)
    ensures r.Some? ==> r.value <= USIZE_MAX
  {
    var digits := if |s| > 1 && s[0] == '+' then s[1..] else s;
    if digits == "" || !AllDigits(digits) || DigitsValue(digits) > USIZE_MAX then None
    else Some(DigitsValue(digits))
  }

  /** `NonZeroUsize::from_str`. */
  function ParsePositive(s: string): (r: Option<nat>)
    ensures r.Some? ==> 0 < r.value <= USIZE_MAX
  {
    match ParseUsize(s)
    case Some(n) => if n == 0 then None else Some(n)
    case None => None
  }

  lemma {:induction false} TextIsDecimal(n: nat)
    ensures ToText(n) != "" && AllDigits(ToText(n)) && DigitsValue(ToText(n)) == n
  {
    if n >= 10 {
      TextIsDecimal(n / 10);
      var s := ToText(n);
      assert s[..|s| - 1] == ToText(n / 10) && s[|s| - 1] == Digit(n % 10);
      assert DigitsValue(s) == 10 * (n / 10) + n % 10;
    }
  }

  /** Printing and parsing a `usize` is the identity, over the whole type. */
  lemma TextRoundTrip(n: nat)
    requires n <= USIZE_MAX
    ensures ParseUsize(ToText(n)) == Some(n)
    ensures ParsePositive(ToText(n)) == if n == 0 then None else Some(n)
  {
    TextIsDecimal(n);
  }

  /** The text that keys an in-flight delivery: `event_id:sequence`. */
  function TokenId(eventId: string, sequence: nat): (t: string) {
    eventId + ":" + ToText(sequence)
  }

  /**
   * The separator can occur in event ids and digits can end them; the pair is still recovered
   * because the sequence text holds no separator.
   */
  lemma TokenIdInjective(a: string, m: nat, b: string, n: nat)
    requires TokenId(a, m) == TokenId(b, n)
    ensures a == b && m == n
  {
    TextIsDecimal(m);
    TextIsDecimal(n);
    SeparatorAt(a, m);
    SeparatorAt(b, n);
    var t := TokenId(a, m);
    assert |ToText(m)| == |ToText(n)|;
    assert t[|a| + 1..] == ToText(m);
    assert t[|b| + 1..] == ToText(n);
    assert t[..|a|] == a && t[..|b|] == b;
  }

  /** The last separator of a token sits right before the sequence text. */
  lemma SeparatorAt(a: string, m: nat)
    ensures var t := TokenId(a, m);
            t[|a|] == ':' && |t| == |a| + 1 + |ToText(m)| && forall i | |a| < i < |t| :: t[i] != ':'
  {
    TextIsDecimal(m);
    var t := TokenId(a, m);
    forall i | |a| < i < |t| ensures t[i] != ':' {
      assert t[i] == ToText(m)[i - |a| - 1];
    }
  }
}
