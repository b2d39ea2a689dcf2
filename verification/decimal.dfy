/** Decimal text of integers: what `%d` prints and what a JSON number reader
    reads back.  Used by the order codec and by the product client's
    "status %d" error message. */
module Decimal {
  import opened Results

  predicate IsDigit(c: char) { '0' <= c <= '9' }

  predicate AllDigits(s: string) { forall i :: 0 <= i < |s| ==> IsDigit(s[i]) }

  function DigitChar(d: nat): (c: char)
    requires d < 10
    ensures IsDigit(c)
    ensures DigitValue(c) == d
  {
    ('0' as int + d) as char
  }

  function DigitValue(c: char): (d: nat)
    requires IsDigit(c)
    ensures d < 10
  {
    c as int - '0' as int
  }

  /** Shortest decimal text of `n`, most significant digit first: no
      leading zero, except for zero itself. */
  function NatToDecimal(n: nat): (s: string)
    ensures 1 <= |s| && AllDigits(s)
    ensures n < 10 <==> |s| == 1
    ensures s[0] == '0' <==> n == 0
    ensures n == 0 ==> s == "0"
  {
    if n < 10 then [DigitChar(n)] else NatToDecimal(n / 10) + [DigitChar(n % 10)]
  }

  /** The value of a run of digits read left to right. */
  function DecimalValue(s: string): nat
    requires AllDigits(s)
  {
    if s == [] then 0 else DecimalValue(s[..|s| - 1]) * 10 + DigitValue(s[|s| - 1])
  }

  /** `fmt.Sprintf("%d", i)`: a minus sign before the digits of a negative number. */
  function IntToDecimal(i: int): string
  {
    if i < 0 then "-" + NatToDecimal(-i) else NatToDecimal(i)
  }

  /** Length of the run of digits at the start of `s`. */
  function DigitRun(s: string): (k: nat)
    ensures k <= |s| && AllDigits(s[..k])
    ensures k < |s| ==> !IsDigit(s[k])
  {
    if s == [] || !IsDigit(s[0]) then 0
    else
      var k := 1 + DigitRun(s[1..]);
      assert s[..k] == [s[0]] + s[1..][..k - 1];
      k
  }

  /** A digit run as JSON writes one: `0`, or digits not starting with `0`. */
  predicate Canonical(d: string)
  {
    AllDigits(d) && 1 <= |d| && (d[0] == '0' ==> |d| == 1)
  }

  /** Reads the longest digit run at the start of `s`; fails when there is
      none, and when the run has a leading zero, which JSON forbids. */
  function ParseNat(s: string): (r: Option<(nat, string)>)
    ensures r.Some? ==> |r.value.1| < |s|
  {
    var k := DigitRun(s);
    if k == 0 || (k > 1 && s[0] == '0') then None else Some((DecimalValue(s[..k]), s[k..]))
  }

  /** Reads an optional minus sign followed by a digit run; `-0` is refused,
      since no number is written that way. */
  function ParseInt(s: string): (r: Option<(int, string)>)
    ensures r.Some? ==> |r.value.1| < |s|
  {
    if s != [] && s[0] == '-' then
      var p :- ParseNat(s[1..]);
      if p.0 == 0 then None
      else
        var v := 0 - p.0 as int;
        Some((v, p.1))
    else
      var p :- ParseNat(s);
      var v: int := p.0;
      Some((v, p.1))
  }

  lemma {:induction false} DecimalValueOfNat(n: nat)
    ensures DecimalValue(NatToDecimal(n)) == n
  {
    var s := NatToDecimal(n);
    if n >= 10 {
      DecimalValueOfNat(n / 10);
      assert s[..|s| - 1] == NatToDecimal(n / 10);
    }
  }

  lemma {:induction false} DigitRunOfDigits(d: string, rest: string)
    requires AllDigits(d)
    requires rest == [] || !IsDigit(rest[0])
    ensures DigitRun(d + rest) == |d|
  {
    if d != [] {
      assert (d + rest)[1..] == d[1..] + rest;
      DigitRunOfDigits(d[1..], rest);
    } else {
      assert d + rest == rest;
    }
  }

  /** Reading back the text `%d` prints gives the number, and stops exactly
      where the next non-digit begins. */
  lemma ParseIntOfDecimal(i: int, rest: string)
    requires rest == [] || !IsDigit(rest[0])
    ensures ParseInt(IntToDecimal(i) + rest) == Some((i, rest))
  {
    var n: nat := if i < 0 then -i else i;
    var d := NatToDecimal(n);
    DigitRunOfDigits(d, rest);
    DecimalValueOfNat(n);
    assert (d + rest)[..|d|] == d && (d + rest)[|d|..] == rest;
    if i < 0 {
      assert ("-" + d + rest)[1..] == d + rest;
    } else {
      assert IsDigit(d[0]);
    }
  }

  /** Distinct numbers print differently. */
  lemma DecimalInjective(i: int, j: int)
    requires IntToDecimal(i) == IntToDecimal(j)
    ensures i == j
  {
    ParseIntOfDecimal(i, []);
    ParseIntOfDecimal(j, []);
    assert IntToDecimal(i) + [] == IntToDecimal(i);
    assert IntToDecimal(j) + [] == IntToDecimal(j);
  }

  lemma DigitCharOfValue(c: char)
    requires IsDigit(c)
    ensures DigitChar(DigitValue(c)) == c
  {
  }

  lemma {:induction false} DecimalValuePositive(d: string)
    requires AllDigits(d) && 1 <= |d| && d[0] != '0'
    ensures DecimalValue(d) >= 1
  {
    if |d| > 1 {
      DecimalValuePositive(d[..|d| - 1]);
    }
  }

  /** A canonical digit run is the text `%d` prints for its value. */
  lemma {:induction false} CanonicalIsDecimal(d: string)
    requires Canonical(d)
    ensures NatToDecimal(DecimalValue(d)) == d
  {
    var c := d[|d| - 1];
    DigitCharOfValue(c);
    if |d| > 1 {
      var front := d[..|d| - 1];
      DecimalValuePositive(front);
      CanonicalIsDecimal(front);
      assert front + [c] == d;
    }
  }

  /** Only the text `%d` prints is read as a number: whatever `ParseInt`
      accepts is the decimal text of its value, followed by a rest that does
      not start with a digit. */
  lemma ParseIntCanonical(s: string, v: int, rest: string)
    requires ParseInt(s) == Some((v, rest))
    ensures s == IntToDecimal(v) + rest
    ensures rest == [] || !IsDigit(rest[0])
  {
    var t := if s != [] && s[0] == '-' then s[1..] else s;
    var k := DigitRun(t);
    var d := t[..k];
    assert Canonical(d);
    CanonicalIsDecimal(d);
    assert t == d + t[k..];
    if s != [] && s[0] == '-' {
      assert s == "-" + t;
    }
  }
}
