/** `generateResi`: the customer-facing tracking code, "BE" followed by the
    last eight characters of the millisecond clock and a three-digit
    zero-padded random number. The clock reading and the random number are
    parameters. */
module Resi {

  const Prefix: string := "BE"

  predicate IsDigit(c: char) {
    '0' <= c <= '9'
  }

  predicate AllDigits(s: string) {
    forall i :: 0 <= i < |s| ==> IsDigit(s[i])
  }

  function DigitChar(d: nat): (c: char)
    requires d < 10
    ensures IsDigit(c) && c as int - '0' as int == d
  {
    ('0' as int + d) as char
  }

  /** Decimal notation of `n` without leading zeros, as `toString()` gives it. */
  function DecimalString(n: nat): (s: string)
    ensures 0 < |s|
  {
    if n < 10 then [DigitChar(n)] else DecimalString(n / 10) + [DigitChar(n % 10)]
  }

  /** The number a string of decimal digits denotes. */
  function DecimalValue(s: string): nat
    requires AllDigits(s)
  {
    if s == [] then 0 else DecimalValue(s[..|s| - 1]) * 10 + (s[|s| - 1] as int - '0' as int)
  }

  function Repeat(c: char, k: nat): (s: string)
    ensures |s| == k && forall i :: 0 <= i < k ==> s[i] == c
  {
    if k == 0 then [] else [c] + Repeat(c, k - 1)
  }

  /** `padStart(len, c)`: prefixes copies of `c` up to length `len`. */
  function PadStart(s: string, len: nat, c: char): (r: string)
    ensures |r| == if |s| >= len then |s| else len
    ensures r[|r| - |s|..] == s
    ensures forall i :: 0 <= i < |r| - |s| ==> r[i] == c
  {
    if |s| >= len then s else Repeat(c, len - |s|) + s
  }

  /** `slice(-8)`: the last eight characters, or all of a shorter string. */
  function LastEight(s: string): (r: string)
    ensures |r| == if |s| >= 8 then 8 else |s|
    ensures r == s[|s| - |r|..]
  {
    if |s| >= 8 then s[|s| - 8..] else s
  }

  lemma {:induction false} DecimalRoundTrip(n: nat)
    ensures AllDigits(DecimalString(n)) && DecimalValue(DecimalString(n)) == n
  {
    var s := DecimalString(n);
    if n >= 10 {
      DecimalRoundTrip(n / 10);
      assert s[..|s| - 1] == DecimalString(n / 10);
    }
  }

  /** A number below 1000 takes at most three digits. */
  lemma DecimalStringBelowThousand(n: nat)
    requires n < 1000
    ensures |DecimalString(n)| <= 3
  {
    if n >= 10 {
      assert |DecimalString(n / 10)| <= 2 by {
        if n / 10 >= 10 {
          assert |DecimalString(n / 100)| == 1;
        }
      }
    }
  }

  lemma {:induction false} ZerosDenoteZero(k: nat)
    ensures AllDigits(Repeat('0', k)) && DecimalValue(Repeat('0', k)) == 0
  {
    if k > 0 {
      var z := Repeat('0', k);
      ZerosDenoteZero(k - 1);
      assert z[..k - 1] == Repeat('0', k - 1);
    }
  }

  /** Leading zeros do not change the number a digit string denotes. */
  lemma {:induction false} LeadingZerosKeepValue(k: nat, s: string)
    requires AllDigits(s)
    ensures AllDigits(Repeat('0', k) + s)
    ensures DecimalValue(Repeat('0', k) + s) == DecimalValue(s)
    decreases |s|
  {
    var z := Repeat('0', k);
    if s == [] {
      assert z + s == z;
      ZerosDenoteZero(k);
    } else {
      var t := z + s;
      LeadingZerosKeepValue(k, s[..|s| - 1]);
      assert t[..|t| - 1] == z + s[..|s| - 1];
    }
  }

  /** The resi for clock reading `timestamp` (the decimal milliseconds) and
      random draw `random` (`Math.floor(Math.random() * 1000)`). */
  function GenerateResi(timestamp: string, random: nat): (r: string)
    requires random < 1000
    ensures |r| == |Prefix| + |LastEight(timestamp)| + 3
    ensures r[..2] == Prefix
    ensures r[2..|r| - 3] == LastEight(timestamp)
    ensures AllDigits(r[|r| - 3..]) && DecimalValue(r[|r| - 3..]) == random
  {
    var digits := DecimalString(random);
    DecimalStringBelowThousand(random);
    DecimalRoundTrip(random);
    var suffix := PadStart(digits, 3, '0');
    LeadingZerosKeepValue(3 - |digits|, digits);
    assert suffix == Repeat('0', 3 - |digits|) + digits;
    var r := Prefix + LastEight(timestamp) + suffix;
    assert r[|r| - 3..] == suffix;
    r
  }

  /** Two resi drawn at the same millisecond coincide only when the random
      draws do. */
  lemma ResiDeterminesRandom(timestamp: string, a: nat, b: nat)
    requires a < 1000 && b < 1000
    ensures GenerateResi(timestamp, a) == GenerateResi(timestamp, b) <==> a == b
  {
    var ra, rb := GenerateResi(timestamp, a), GenerateResi(timestamp, b);
    if ra == rb {
      assert ra[|ra| - 3..] == rb[|rb| - 3..];
    }
  }
}
