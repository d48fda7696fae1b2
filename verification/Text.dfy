/** Decimal printing and parsing, as done by Go's `%d` and `strconv`, and the
    string-splitting facts that the encodings of the other modules rest on. */
module Text {
  import opened Kube

  predicate IsDigit(c: char) {
    '0' <= c <= '9'
  }

  function DigitChar(d: nat): char
    requires d < 10
  {
    ('0' as int + d) as char
  }

  function DigitValue(c: char): nat
    requires IsDigit(c)
  {
    c as int - '0' as int
  }

  predicate AllDigits(s: string) {
    forall i :: 0 <= i < |s| ==> IsDigit(s[i])
  }

  /** `%d` of a non-negative integer. */
  function DecNat(n: nat): string {
    if n < 10 then [DigitChar(n)] else DecNat(n / 10) + [DigitChar(n % 10)]
  }

  /** `%d` of an integer. */
  function Dec(n: int): string {
    if n < 0 then "-" + DecNat(-n) else DecNat(n)
  }

  /** The number a string of digits denotes. */
  function NatValue(s: string): nat
    requires AllDigits(s)
  {
    if s == "" then 0 else NatValue(s[..|s| - 1]) * 10 + DigitValue(s[|s| - 1])
  }

  function Pow10(k: nat): (r: nat)
    ensures r > 0
  {
    if k == 0 then 1 else 10 * Pow10(k - 1)
  }

  lemma {:induction false} DecNatRoundTrip(n: nat)
    ensures DecNat(n) != "" && AllDigits(DecNat(n)) && NatValue(DecNat(n)) == n
  {
    if n >= 10 {
      DecNatRoundTrip(n / 10);
      var s := DecNat(n);
      assert s[..|s| - 1] == DecNat(n / 10);
    }
  }

  /** Positional notation: every further digit counts ten times less. */
  lemma NatValueIs(s: string, c: char)
    requires AllDigits(s) && '0' <= c <= '9'
    ensures NatValue("") == 0 && NatValue(s + [c]) == 10 * NatValue(s) + (c as int - '0' as int)
  {
    assert (s + [c])[..|s|] == s;
  }

  /** Numbers are printed without leading zeros and, if negative, with a minus sign. */
  lemma {:induction false} DecIs(n: int)
    ensures n == 0 ==> Dec(n) == "0"
    ensures n > 0 ==> Dec(n) != "" && '1' <= Dec(n)[0] <= '9' && AllDigits(Dec(n)) && NatValue(Dec(n)) == n
    ensures n < 0 ==> Dec(n) == "-" + Dec(-n)
    decreases if n < 0 then -n else n
  {
    if n >= 10 {
      DecIs(n / 10);
    }
    if n > 0 {
      DecNatRoundTrip(n);
    }
  }

  lemma DecInjective(a: int, b: int)
    requires Dec(a) == Dec(b)
    ensures a == b
  {
    DecNatRoundTrip(if a < 0 then -a else a);
    DecNatRoundTrip(if b < 0 then -b else b);
    assert a < 0 <==> Dec(a)[0] == '-';
    assert b < 0 <==> Dec(b)[0] == '-';
    if a < 0 {
      assert Dec(a)[1..] == DecNat(-a) && Dec(b)[1..] == DecNat(-b);
    }
  }

  lemma DecNoBar(n: int)
    ensures '|' !in Dec(n)
  {
    DecNatRoundTrip(if n < 0 then -n else n);
  }

  lemma {:induction false} DecNatLength(n: nat, k: nat)
    requires 1 <= k && n < Pow10(k)
    ensures |DecNat(n)| <= k
  {
    if n >= 10 {
      assert k > 1;
      DecNatLength(n / 10, k - 1);
    }
  }

  /** strconv.ParseInt with base 10 and 64 bits. */
  function ParseInt64(s: string): Option<int> {
    var digits := if s != "" && (s[0] == '-' || s[0] == '+') then s[1..] else s;
    if digits == "" || !AllDigits(digits) then None
    else
      var magnitude: int := NatValue(digits);
      var value := if s[0] == '-' then -magnitude else magnitude;
      if -0x8000_0000_0000_0000 <= value < 0x8000_0000_0000_0000 then Some(value) else None
  }

  /** Digits with an optional sign, if the number fits into 64 bits. */
  lemma ParseInt64Is(digits: string)
    requires AllDigits(digits)
    ensures var n: int := NatValue(digits);
            && ParseInt64(digits) == (if digits != "" && n <= 0x7FFF_FFFF_FFFF_FFFF then Some(n) else None)
            && ParseInt64("+" + digits) == ParseInt64(digits)
            && ParseInt64("-" + digits) == (if digits != "" && n <= 0x8000_0000_0000_0000 then Some(-n) else None)
  {
    assert ("+" + digits)[1..] == digits && ("-" + digits)[1..] == digits;
  }

  lemma ParseInt64Rejects(s: string, i: nat)
    requires i < |s| && !IsDigit(s[i]) && (i > 0 || (s[0] != '+' && s[0] != '-'))
    ensures ParseInt64(s) == None
  {
    if s[0] == '-' || s[0] == '+' {
      assert s[1..][i - 1] == s[i];
    }
  }

  /** What is printed is parsed back. */
  lemma ParseInt64OfDec(n: int)
    requires -0x8000_0000_0000_0000 <= n <= 0x7FFF_FFFF_FFFF_FFFF
    ensures ParseInt64(Dec(n)) == Some(n)
  {
    DecNatRoundTrip(if n < 0 then -n else n);
    ParseInt64Is(DecNat(if n < 0 then -n else n));
  }

  /** A 32-bit integer prints to at most eleven characters. */
  lemma DecInt32Length(n: int)
    requires -0x8000_0000 <= n < 0x8000_0000
    ensures |Dec(n)| <= 11
  {
    assert Pow10(5) == 100_000;
    assert Pow10(10) == 10_000_000_000;
    DecNatLength(if n < 0 then -n else n, 10);
  }

  /** Splitting at the last separator is unique. */
  lemma SplitAtLast(a: string, x: string, b: string, y: string, sep: char)
    requires a + [sep] + x == b + [sep] + y
    requires sep !in x && sep !in y
    ensures a == b && x == y
  {
    var s := a + [sep] + x;
    assert s[|a|] == sep && s[|b|] == sep;
    assert forall i :: |a| < i < |s| ==> s[i] == x[i - |a| - 1];
    assert forall i :: |b| < i < |s| ==> s[i] == y[i - |b| - 1];
    assert |a| == |b|;
    assert a == s[..|a|] == b;
    assert x == s[|a| + 1..] == y;
  }

  /** Splitting at the first separator is unique. */
  lemma SplitAtFirst(a: string, x: string, b: string, y: string, sep: char)
    requires a + [sep] + x == b + [sep] + y
    requires sep !in a && sep !in b
    ensures a == b && x == y
  {
    var s := a + [sep] + x;
    assert s[|a|] == sep && s[|b|] == sep;
    assert forall i :: 0 <= i < |a| ==> s[i] == a[i];
    assert forall i :: 0 <= i < |b| ==> s[i] == b[i];
    assert |a| == |b|;
    assert a == s[..|a|] == b;
    assert x == s[|a| + 1..] == y;
  }
}
