/** The display labels of the execution sequence: process `i` is shown as
    "P" followed by the decimal digits of `i`, as Python's `str` writes them. */
module Labels {

  predicate IsDigit(c: char)
  {
    '0' <= c <= '9'
  }

  predicate AllDigits(s: string)
  {
    forall k :: 0 <= k < |s| ==> IsDigit(s[k])
  }

  function DigitChar(d: nat): (c: char)
    requires d < 10
    ensures IsDigit(c) && c as int - '0' as int == d
  {
    ('0' as int + d) as char
  }

  /** The decimal numeral of `i`: at least one digit, and no leading zero
      unless the numeral is "0" itself. */
  function DecimalString(i: nat): (s: string)
    ensures AllDigits(s) && |s| >= 1
    ensures (|s| == 1) == (i < 10)
    ensures |s| > 1 ==> s[0] != '0'
  {
    if i < 10 then [DigitChar(i)] else DecimalString(i / 10) + [DigitChar(i % 10)]
  }

  /** Reads a string of digits as a decimal number. */
  function ParseDecimal(s: string): (n: nat)
    requires AllDigits(s)
  {
    if s == [] then 0 else 10 * ParseDecimal(s[..|s| - 1]) + (s[|s| - 1] as int - '0' as int)
  }

  /** The numeral names the number it was made from. */
  lemma {:induction false} ParseDecimalString(i: nat)
    ensures ParseDecimal(DecimalString(i)) == i
  {
    var s := DecimalString(i);
    if i >= 10 {
      assert s[..|s| - 1] == DecimalString(i / 10);
      ParseDecimalString(i / 10);
    } else {
      assert s[..|s| - 1] == [];
    }
  }

  /** The label of process `i` in the execution sequence. */
  function Label(i: nat): (s: string)
    ensures |s| >= 2 && s[0] == 'P'
  {
    "P" + DecimalString(i)
  }

  /** Distinct processes get distinct labels. */
  lemma LabelInjective(i: nat, j: nat)
    ensures Label(i) == Label(j) <==> i == j
  {
    if Label(i) == Label(j) {
      assert Label(i)[1..] == DecimalString(i) && Label(j)[1..] == DecimalString(j);
      ParseDecimalString(i);
      ParseDecimalString(j);
    }
  }
}
