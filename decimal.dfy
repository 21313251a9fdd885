/** Decimal rendering of identifiers, as string concatenation of a Java `Long` produces it. */
module Decimal {

  function DigitChar(d: nat): (c: char)
    requires d < 10
    ensures '0' <= c <= '9'
    ensures (c as int - '0' as int) == d
  {
    "0123456789"[d]
  }

  function DigitValue(c: char): nat
  {
    if '0' <= c <= '9' then (c as int - '0' as int) as nat else 0
  }

  /** The decimal digits of `n`, most significant first, without leading zeros. */
  function ShowDigits(n: nat): (s: string)
    ensures |s| >= 1
    ensures forall i :: 0 <= i < |s| ==> '0' <= s[i] <= '9'
    decreases n
  {
    if n < 10 then [DigitChar(n)] else ShowDigits(n / 10) + [DigitChar(n % 10)]
  }

  /** Reads a string of decimal digits back as a number. */
  function ReadDigits(s: string): nat
    decreases |s|
  {
    if s == [] then 0 else ReadDigits(s[..|s| - 1]) * 10 + DigitValue(s[|s| - 1])
  }

  /** The text of a signed id: a leading `-` for a negative one, then its digits. */
  function Show(n: int): (s: string)
    ensures |s| >= 1
    ensures (s[0] == '-') <==> n < 0
  {
    if n < 0 then "-" + ShowDigits(-n) else ShowDigits(n)
  }

  /** Reads a signed decimal text back as a number. */
  function Read(s: string): int
  {
    if |s| > 0 && s[0] == '-' then 0 - ReadDigits(s[1..]) as int else ReadDigits(s)
  }

  lemma {:induction false} ReadShowDigits(n: nat)
    ensures ReadDigits(ShowDigits(n)) == n
  {
    var s := ShowDigits(n);
    if n < 10 {
      assert s[..|s| - 1] == [];
    } else {
      assert s[..|s| - 1] == ShowDigits(n / 10);
      ReadShowDigits(n / 10);
    }
  }

  /** A leading `-` negates the value of the digits after it. */
  lemma ReadSigned(digits: string, m: nat)
    requires ReadDigits(digits) == m
    ensures Read("-" + digits) == 0 - m
  {
    assert ("-" + digits)[1..] == digits;
  }

  lemma {:induction false} ReadShowNegative(m: nat)
    requires m > 0
    ensures Read(Show(0 - m)) == 0 - m
  {
    var digits := ShowDigits(m);
    assert Show(0 - m) == "-" + digits;
    ReadShowDigits(m);
    ReadSigned(digits, m);
  }

  lemma {:induction false} ReadShowNonNegative(n: int)
    requires n >= 0
    ensures Read(Show(n)) == n
  {
    assert Show(n) == ShowDigits(n);
    ReadShowDigits(n);
  }

  /** The rendered id can be read back, sign included: the text names exactly that id. */
  lemma {:induction false} ReadShow(n: int)
    ensures Read(Show(n)) == n
  {
    if n < 0 {
      ReadShowNegative(0 - n);
    } else {
      ReadShowNonNegative(n);
    }
  }

  /** Distinct ids render as distinct strings. */
  lemma ShowInjective(m: int, n: int)
    requires Show(m) == Show(n)
    ensures m == n
  {
    ReadShow(m);
    ReadShow(n);
  }
}
