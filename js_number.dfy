/** JavaScript Numbers as the byte-range code meets them: integers, or NaN
    when `parseInt` finds no digits or an operand is `undefined`. */
module JsNumber {
  import opened Text

  /** An integral JavaScript Number, or NaN. */
  datatype Num = Int(value: int) | NaN

  /** `a + b`: NaN as soon as either side is NaN. */
  function Add(a: Num, b: Num): (r: Num)
    ensures r.Int? <==> a.Int? && b.Int?
  {
    if a.Int? && b.Int? then Int(a.value + b.value) else NaN
  }

  /** `a - b`: NaN as soon as either side is NaN. */
  function Sub(a: Num, b: Num): (r: Num)
    ensures r.Int? <==> a.Int? && b.Int?
  {
    if a.Int? && b.Int? then Int(a.value - b.value) else NaN
  }

  predicate IsDigit(c: char) {
    '0' <= c <= '9'
  }

  predicate AllDigits(s: string) {
    forall i :: 0 <= i < |s| ==> IsDigit(s[i])
  }

  function DigitChar(d: nat): (c: char)
    requires d < 10
    ensures IsDigit(c)
  {
    ('0' as int + d) as char
  }

  function DigitValue(c: char): (d: nat)
    requires IsDigit(c)
    ensures d < 10 && DigitChar(d) == c
  {
    c as int - '0' as int
  }

  /** The decimal numeral of `n`: most significant digit first, no leading zero. */
  function NatDigits(n: nat): (r: string)
    ensures r != [] && AllDigits(r)
    ensures |r| > 1 ==> r[0] != '0'
  {
    if n < 10 then [DigitChar(n)] else NatDigits(n / 10) + [DigitChar(n % 10)]
  }

  /** The value of a string of decimal digits. */
  function DigitsValue(s: string): nat
    requires AllDigits(s)
  {
    if s == [] then 0 else DigitsValue(s[..|s| - 1]) * 10 + DigitValue(s[|s| - 1])
  }

  /** Reading a numeral back gives the number it was written from. */
  lemma {:induction false} DigitsRoundTrip(n: nat)
    ensures DigitsValue(NatDigits(n)) == n
  {
    if n >= 10 {
      var s := NatDigits(n);
      assert s[..|s| - 1] == NatDigits(n / 10);
      DigitsRoundTrip(n / 10);
    }
  }

  /** `String(x)`: the decimal numeral, with a minus sign when negative, or "NaN". */
  function Show(x: Num): string {
    match x
    case NaN => "NaN"
    case Int(v) => if v < 0 then "-" + NatDigits(-v) else NatDigits(v)
  }

  /** Length of the longest run of digits at the front of `s`. */
  function DigitRun(s: string): (k: nat)
    ensures k <= |s| && AllDigits(s[..k])
    ensures k < |s| ==> !IsDigit(s[k])
  {
    if s != [] && IsDigit(s[0]) then 1 + DigitRun(s[1..]) else 0
  }

  /** The number written by the digits at the front of `u`; NaN when there are none. */
  function LeadingNumber(u: string): Num {
    var k := DigitRun(u);
    if k == 0 then NaN else Int(DigitsValue(u[..k]))
  }

  /** `-x` */
  function Negate(x: Num): Num {
    if x.Int? then Int(-x.value) else NaN
  }

  /** `parseInt(s, 10)`: skips leading white space, reads an optional sign and
      the longest run of digits after it; NaN when that run is empty. Values
      stay exact (the model has no 2^53 precision limit). */
  function ParseInt(s: string): Num {
    var t := TrimStart(s);
    if t != [] && t[0] == '-' then Negate(LeadingNumber(t[1..]))
    else if t != [] && t[0] == '+' then LeadingNumber(t[1..])
    else LeadingNumber(t)
  }

  /** A string of digits is read whole. */
  lemma LeadingDigits(s: string)
    requires AllDigits(s)
    ensures LeadingNumber(s) == if s == [] then NaN else Int(DigitsValue(s))
  {
    assert DigitRun(s) == |s|;
    assert s[..|s|] == s;
  }

  /** The empty string parses to NaN. */
  lemma ParseEmpty()
    ensures ParseInt("") == NaN
  {
  }

  /** A string that starts with a digit or a minus sign has no white space to skip. */
  lemma NoLeadingSpace(s: string)
    requires s != [] && (IsDigit(s[0]) || s[0] == '-')
    ensures TrimStart(s) == s
  {
    assert !IsSpace(s[0]);
  }

  /** `parseInt` reads back every integer `String` writes. */
  lemma ParseShow(x: Num)
    requires x.Int?
    ensures ParseInt(Show(x)) == x
  {
    var v := x.value;
    var m: nat := if v < 0 then -v else v;
    var d := NatDigits(m);
    LeadingDigits(d);
    DigitsRoundTrip(m);
    if v < 0 {
      var s := "-" + d;
      assert Show(x) == s;
      NoLeadingSpace(s);
      assert s[1..] == d;
    } else {
      assert Show(x) == d;
      NoLeadingSpace(d);
    }
  }

  /** A numeral is never empty and never contains the given non-digit. */
  lemma NumeralHasNo(n: nat, c: char)
    requires !IsDigit(c)
    ensures c !in NatDigits(n)
  {
  }
}
