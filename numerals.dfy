/**
 * Digit strings of natural numbers, the way Arduino's `String(value, base)`
 * renders them: most significant digit first, no leading zeros, lower-case
 * letters for digits above nine.
 */
module Numerals {

  function DigitChar(d: nat): (c: char)
    requires d < 16
  {
    if d < 10 then ('0' as int + d) as char else ('a' as int + d - 10) as char
  }

  /** The value of a digit character, or -1 when the character is not a digit. */
  function DigitValue(c: char): (v: int)
    ensures -1 <= v < 16
  {
    if '0' <= c <= '9' then c as int - '0' as int
    else if 'a' <= c <= 'f' then c as int - 'a' as int + 10
    else -1
  }

  lemma DigitRoundTrip(d: nat)
    requires d < 16
    ensures DigitValue(DigitChar(d)) == d
  {
  }

  function NumToString(n: nat, base: nat): (s: string)
    requires 2 <= base <= 16
    ensures |s| >= 1
    decreases n
  {
    if n < base then [DigitChar(n)]
    else NumToString(n / base, base) + [DigitChar(n % base)]
  }

  /** Reads a digit string back, most significant digit first. */
  function ParseNum(s: string, base: nat): nat
    requires 2 <= base <= 16
  {
    if s == [] then 0
    else
      var d := DigitValue(s[|s| - 1]);
      ParseNum(s[..|s| - 1], base) * base + (if d < 0 then 0 else d)
  }

  /** Appending a digit multiplies what was read so far by the base and adds the digit. */
  lemma ParseNumAppendDigit(prefix: string, d: nat, base: nat)
    requires 2 <= base <= 16 && d < base
    ensures ParseNum(prefix + [DigitChar(d)], base) == ParseNum(prefix, base) * base + d
  {
    var s := prefix + [DigitChar(d)];
    assert s[..|s| - 1] == prefix;
    DigitRoundTrip(d);
  }

  /** The inductive step: reading back the quotient's digits and then the last digit. */
  lemma ParseNumToStringStep(n: nat, base: nat)
    requires 2 <= base <= 16 && base <= n
    requires ParseNum(NumToString(n / base, base), base) == n / base
    ensures ParseNum(NumToString(n, base), base) == n
  {
    var q, r := n / base, n % base;
    var prefix := NumToString(q, base);
    assert NumToString(n, base) == prefix + [DigitChar(r)];
    ParseNumAppendDigit(prefix, r, base);
    assert ParseNum(prefix + [DigitChar(r)], base) == q * base + r;
    DivMod(n, base);
  }

  lemma DivMod(n: nat, base: nat)
    requires 2 <= base
    ensures n == (n / base) * base + n % base
  {
  }

  lemma {:induction false} ParseNumToString(n: nat, base: nat)
    requires 2 <= base <= 16
    ensures ParseNum(NumToString(n, base), base) == n
    decreases n
  {
    if n < base {
      DigitRoundTrip(n);
      assert [DigitChar(n)][..0] == [];
    } else {
      ParseNumToString(n / base, base);
      ParseNumToStringStep(n, base);
    }
  }

  /** Every character of a rendering is a digit of the base, and there is no leading zero. */
  lemma {:induction false} NumToStringDigits(n: nat, base: nat)
    requires 2 <= base <= 16
    ensures var s := NumToString(n, base);
      (forall i :: 0 <= i < |s| ==> 0 <= DigitValue(s[i]) < base)
      && (|s| > 1 ==> s[0] != '0')
    decreases n
  {
    if n < base {
      DigitRoundTrip(n);
    } else {
      NumToStringDigits(n / base, base);
      DigitRoundTrip(n % base);
      var prefix := NumToString(n / base, base);
      var s := NumToString(n, base);
      assert s == prefix + [DigitChar(n % base)];
      forall i | 0 <= i < |s| ensures 0 <= DigitValue(s[i]) < base {
        if i < |prefix| { assert s[i] == prefix[i]; }
      }
      if |prefix| == 1 {
        assert n / base >= 1;
        DigitRoundTrip(n / base);
      }
    }
  }

  /** A number below base * base takes at most two digits. */
  lemma NumToStringTwoDigits(n: nat, base: nat)
    requires 2 <= base <= 16
    requires n < base * base
    ensures 1 <= |NumToString(n, base)| <= 2
  {
    if n >= base {
      assert n / base < base;
    }
  }
}
