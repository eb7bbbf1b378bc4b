/** Numbers as the formatting library prints them, and reading them back. */
module Numerals {

  const DIGITS := "0123456789abcdef"

  function Digit(c: char): int {
    if '0' <= c <= '9' then c as int - '0' as int
    else if 'a' <= c <= 'f' then c as int - 'a' as int + 10
    else -1
  }

  lemma DigitOf(d: nat)
    requires d < 16
    ensures Digit(DIGITS[d]) == d
  {
  }

  function Print(n: nat, base: nat): (s: string)
    requires 2 <= base <= 16
    decreases n
  {
    if n < base then [DIGITS[n]]
    else
      assert n / base < n;
      Print(n / base, base) + [DIGITS[n % base]]
  }

  /** Zero-padded to a minimal width, like `{:04x}`. */
  function Padded(n: nat, base: nat, width: nat): string
    requires 2 <= base <= 16
  {
    Zeros(width - |Print(n, base)|) + Print(n, base)
  }

  function Zeros(k: int): string {
    if k <= 0 then [] else ['0'] + Zeros(k - 1)
  }

  function Value(s: string, base: nat): int {
    if s == [] then 0 else Value(s[..|s| - 1], base) * base + Digit(s[|s| - 1])
  }

  predicate Numeral(s: string, base: nat) {
    forall i :: 0 <= i < |s| ==> 0 <= Digit(s[i]) < base
  }

  lemma Divided(n: nat, base: nat)
    requires base >= 2 && n >= base
    ensures 0 < n / base < n && n == n / base * base + n % base
  {
  }

  lemma NumeralSnoc(s: string, d: nat, base: nat)
    requires Numeral(s, base) && d < base <= 16
    ensures Numeral(s + [DIGITS[d]], base)
    ensures Value(s + [DIGITS[d]], base) == Value(s, base) * base + d
  {
    DigitOf(d);
    assert (s + [DIGITS[d]])[..|s|] == s;
  }

  lemma {:induction false} PrintIsNumeral(n: nat, base: nat)
    requires 2 <= base <= 16
    ensures Numeral(Print(n, base), base) && Print(n, base) != []
    ensures Value(Print(n, base), base) == n
    decreases n
  {
    if n < base {
      DigitOf(n);
      assert [DIGITS[n]][..0] == [];
    } else {
      Divided(n, base);
      PrintIsNumeral(n / base, base);
      NumeralSnoc(Print(n / base, base), n % base, base);
    }
  }

  lemma {:induction false} ZerosAre(k: int)
    ensures |Zeros(k)| == if k <= 0 then 0 else k
    ensures forall i :: 0 <= i < |Zeros(k)| ==> Zeros(k)[i] == '0'
  {
    if k > 0 {
      ZerosAre(k - 1);
    }
  }

  lemma {:induction false} ValueIgnoresZeros(k: int, s: string, base: nat)
    ensures Value(Zeros(k) + s, base) == Value(s, base)
    decreases |s|, k
  {
    ZerosAre(k);
    if s == [] {
      if k > 0 {
        ZerosAre(k - 1);
        ValueIgnoresZeros(k - 1, [], base);
        assert (Zeros(k) + [])[..k - 1] == Zeros(k - 1) + [];
      }
    } else {
      ValueIgnoresZeros(k, s[..|s| - 1], base);
      assert (Zeros(k) + s)[..|Zeros(k) + s| - 1] == Zeros(k) + s[..|s| - 1];
    }
  }

  /** Printing loses nothing, padded or not. */
  lemma PaddedIsNumeral(n: nat, base: nat, width: nat)
    requires 2 <= base <= 16
    ensures Numeral(Padded(n, base, width), base)
    ensures |Padded(n, base, width)| == if |Print(n, base)| < width then width else |Print(n, base)|
    ensures Value(Padded(n, base, width), base) == n
  {
    PrintIsNumeral(n, base);
    ZerosAre(width - |Print(n, base)|);
    ValueIgnoresZeros(width - |Print(n, base)|, Print(n, base), base);
  }

  /** There are no leading zeros, but for zero itself, */
  lemma {:induction false} PrintIsMinimal(n: nat, base: nat)
    requires 2 <= base <= 16
    ensures |Print(n, base)| >= 1 && (|Print(n, base)| > 1 ==> Print(n, base)[0] != '0')
    ensures n > 0 ==> Print(n, base)[0] != '0'
    decreases n
  {
    if n >= base {
      Divided(n, base);
      PrintIsMinimal(n / base, base);
    }
  }

  /** or for those the width asks for. */
  lemma PaddedIsMinimal(n: nat, base: nat, width: nat)
    requires 2 <= base <= 16
    ensures |Padded(n, base, width)| > width && |Padded(n, base, width)| > 1 ==> Padded(n, base, width)[0] != '0'
  {
    PrintIsMinimal(n, base);
    ZerosAre(width - |Print(n, base)|);
  }

  // ---------------------------------------------------------------------------------------------
  // Reading

  /** The length of the numeral at the start of a text. */
  function Span(t: string, base: nat): (n: nat)
    ensures n <= |t|
  {
    if t == [] || !(0 <= Digit(t[0]) < base) then 0 else 1 + Span(t[1..], base)
  }

  lemma {:induction false} SpanOf(x: string, y: string, base: nat)
    requires Numeral(x, base) && (y == [] || !(0 <= Digit(y[0]) < base))
    ensures Span(x + y, base) == |x|
  {
    if x == [] {
      assert x + y == y;
    } else {
      assert (x + y)[1..] == x[1..] + y;
      SpanOf(x[1..], y, base);
    }
  }
}
