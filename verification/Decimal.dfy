/** Unsigned decimal text, as fmt's %d prints it and strconv.Atoi reads it. */
module Decimal {
  predicate IsDigit(c: char) {
    '0' <= c <= '9'
  }

  predicate AllDigits(s: string) {
    forall i :: 0 <= i < |s| ==> IsDigit(s[i])
  }

  function DigitChar(d: nat): (c: char)
    requires d < 10
    ensures IsDigit(c) && DigitValue(c) == d
  {
    '0' + d as char
  }

  function DigitValue(c: char): nat
    requires IsDigit(c)
  {
    (c as int) - ('0' as int)
  }

  /** Shortest decimal text of n. */
  function Print(n: nat): (s: string)
    ensures |s| > 0 && AllDigits(s)
  {
    if n < 10 then [DigitChar(n)] else Print(n / 10) + [DigitChar(n % 10)]
  }

  /** The number a digit string stands for; leading zeros are allowed. */
  function Read(s: string): nat
    requires AllDigits(s)
  {
    if s == "" then 0 else 10 * Read(s[..|s| - 1]) + DigitValue(s[|s| - 1])
  }

  /** Printing and reading back is the identity. */
  lemma {:induction false} ReadPrint(n: nat)
    ensures Read(Print(n)) == n
  {
    var s := Print(n);
    if n < 10 {
      assert s[..0] == "";
    } else {
      assert s[..|s| - 1] == Print(n / 10);
      ReadPrint(n / 10);
    }
  }

  function Pow10(k: nat): nat {
    if k == 0 then 1 else 10 * Pow10(k - 1)
  }

  lemma Shift(x: nat, k: nat)
    ensures 10 * (x * Pow10(k)) == x * Pow10(k + 1)
  {
  }

  /** Digits count by their place: what stands before k digits counts 10^k times. */
  lemma {:induction false} ReadByPlace(a: string, b: string)
    requires AllDigits(a) && AllDigits(b)
    ensures AllDigits(a + b) && Read(a + b) == Read(a) * Pow10(|b|) + Read(b)
    decreases |b|
  {
    if b == "" {
      assert a + b == a;
    } else {
      var n := |b| - 1;
      ReadByPlace(a, b[..n]);
      assert (a + b)[..|a| + n] == a + b[..n];
      Shift(Read(a), n);
    }
  }

  /** A digit by itself stands for its value. */
  lemma ReadDigit(c: char)
    requires IsDigit(c)
    ensures Read([c]) == c as int - '0' as int
  {
    assert [c][..0] == "";
  }

  /** Numbers are printed without leading zeros. */
  lemma {:induction false} PrintIsShort(n: nat)
    ensures Print(n)[0] == '0' <==> n == 0
    ensures n == 0 ==> Print(n) == "0"
  {
    if n >= 10 {
      PrintIsShort(n / 10);
    }
  }
}
