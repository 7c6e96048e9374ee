/** Decimal numerals: printing with %d, and strconv.ParseUint(s, 10, 32) with its error ignored. */
module Decimal {

  const MAX32 := 0xFFFF_FFFF

  predicate IsDigit(c: char) { '0' <= c <= '9' }

  function Digit(d: nat): char
    requires d < 10
  {
    '0' + d as char
  }

  function Print(n: nat): (s: string)
    ensures s != []
  {
    if n < 10 then [Digit(n)] else Print(n / 10) + [Digit(n % 10)]
  }

  /** A scan that is still in range, has overflowed, or met a character that is no digit. */
  datatype Scan = InRange(value: nat) | Overflow | Syntax

  /** Reads digits from the left; the first problem met decides the outcome. */
  function ScanDigits(s: string): Scan {
    if s == [] then InRange(0)
    else
      var n := |s| - 1;
      match ScanDigits(s[..n])
      case InRange(v) =>
        if !IsDigit(s[n]) then Syntax
        else
          var w := v * 10 + (s[n] as int - '0' as int);
          if w > MAX32 then Overflow else InRange(w)
      case bad => bad
  }

  /** The number returned next to the ignored error: 0 for bad syntax, the maximum on overflow. */
  function Parse32(s: string): nat {
    if s == [] then 0
    else
      match ScanDigits(s)
      case InRange(v) => v
      case Overflow => MAX32
      case Syntax => 0
  }

  lemma {:induction false} ScanPrint(n: nat)
    ensures ScanDigits(Print(n)) == if n <= MAX32 then InRange(n) else Overflow
  {
    if n < 10 {
      assert Print(n)[..0] == [];
    } else {
      ScanPrint(n / 10);
      assert (Print(n / 10) + [Digit(n % 10)])[..|Print(n / 10)|] == Print(n / 10);
    }
  }

  /** Reading a printed number back gives it, or the 32-bit maximum when it does not fit. */
  lemma ParsePrint(n: nat)
    ensures Parse32(Print(n)) == if n < 0x1_0000_0000 then n else 0xFFFF_FFFF
  {
    ScanPrint(n);
  }

  lemma {:induction false} PrintInjective(m: nat, n: nat)
    requires Print(m) == Print(n)
    ensures m == n
  {
    var p, q := Print(m), Print(n);
    assert p[|p| - 1] == q[|q| - 1] && p[..|p| - 1] == q[..|q| - 1];
    assert m % 10 == n % 10;
    if m >= 10 && n >= 10 {
      assert p[..|p| - 1] == Print(m / 10) && q[..|q| - 1] == Print(n / 10);
      PrintInjective(m / 10, n / 10);
    }
  }

  /** The digits that print a number, and what they are worth. */
  function Worth(s: string): int { if s == [] then 0 else Worth(s[..|s| - 1]) * 10 + (s[|s| - 1] as int - '0' as int) }

  /** A number is printed in decimal digits, without a leading zero. */
  lemma {:induction false} PrintDecimal(n: nat)
    ensures Worth(Print(n)) == n && (forall i :: 0 <= i < |Print(n)| ==> '0' <= Print(n)[i] <= '9')
    ensures n > 0 ==> Print(n)[0] != '0'
  {
    var s := Print(n);
    if n < 10 {
      assert s[..0] == [];
    } else {
      PrintDecimal(n / 10);
      assert s[..|s| - 1] == Print(n / 10);
    }
  }

  /** What is no numeral, the empty string included, reads as zero. */
  lemma {:induction false} ParseGarbage(s: string, i: nat)
    requires i < |s| && !IsDigit(s[i]) && ScanDigits(s[..i]).InRange?
    ensures Parse32([]) == Parse32(s) == 0
  {
    ScanBad(s, i);
  }

  lemma {:induction false} ScanBad(s: string, i: nat)
    requires i < |s| && !IsDigit(s[i]) && ScanDigits(s[..i]).InRange?
    ensures ScanDigits(s) == Syntax
  {
    var n := |s| - 1;
    if i < n {
      assert s[..n][..i] == s[..i];
      ScanBad(s[..n], i);
    }
  }
}
