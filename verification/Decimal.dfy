/** Decimal rendering (`%d`) and the `%s-%d` identifiers built from it. */
module Decimal {

  /** The range of Go's `uint64` counters. */
  const TWO64: nat := 0x1_0000_0000_0000_0000

  function Digit(d: nat): (c: char)
    requires d < 10
    ensures '0' <= c <= '9' && c as int == '0' as int + d
  {
    ['0', '1', '2', '3', '4', '5', '6', '7', '8', '9'][d]
  }

  /** `fmt.Sprintf("%d", n)`. */
  function Dec(n: nat): (s: string)
    ensures |s| > 0
    ensures forall i :: 0 <= i < |s| ==> '0' <= s[i] <= '9'
  {
    if n < 10 then [Digit(n)] else Dec(n / 10) + [Digit(n % 10)]
  }

  /** The value of a string of digits; the left inverse of `Dec`. */
  function Undec(s: string): nat
    requires forall i :: 0 <= i < |s| ==> '0' <= s[i] <= '9'
  {
    if s == [] then 0 else 10 * Undec(s[..|s| - 1]) + (s[|s| - 1] as int - '0' as int)
  }

  lemma {:induction false} DecRoundTrip(n: nat)
    ensures Undec(Dec(n)) == n
  {
    if n < 10 {
      assert Dec(n)[..0] == [];
    } else {
      DecRoundTrip(n / 10);
      var s := Dec(n);
      assert s == Dec(n / 10) + [Digit(n % 10)];
      assert s[..|s| - 1] == Dec(n / 10) && s[|s| - 1] == Digit(n % 10);
    }
  }

  /** `fmt.Sprintf("%s-%d", prefix, counter)` for a counter that wraps at 2^64. */
  function Tag(prefix: string, counter: nat): (s: string)
    ensures |s| > |prefix| && prefix <= s
  {
    prefix + "-" + Dec(counter % TWO64)
  }

  /** A dash followed by digits only is the last dash. */
  lemma LastDash(p: string, a: string, q: string, b: string)
    requires p + "-" + a == q + "-" + b
    requires forall i :: 0 <= i < |a| ==> '0' <= a[i] <= '9'
    requires forall i :: 0 <= i < |b| ==> '0' <= b[i] <= '9'
    ensures p == q && a == b
  {
    var s := p + "-" + a;
    assert s[|p|] == '-' && s[|q|] == '-';
    forall i | |p| < i < |s| ensures s[i] != '-' {
      assert s[i] == a[i - |p| - 1];
    }
    forall i | |q| < i < |s| ensures s[i] != '-' {
      assert s[i] == b[i - |q| - 1];
    }
    assert |p| == |q|;
    assert p == s[..|p|] && q == s[..|q|];
    assert a == s[|p| + 1..] && b == s[|q| + 1..];
  }

  /** Two renderings agree only if the prefixes and the printed numbers agree,
      whatever dashes and digits the prefixes contain. */
  lemma TagInjective(p: string, m: nat, q: string, n: nat)
    ensures Tag(p, m) == Tag(q, n) <==> p == q && m % TWO64 == n % TWO64
  {
    hide Dec, Undec;
    if Tag(p, m) == Tag(q, n) {
      LastDash(p, Dec(m % TWO64), q, Dec(n % TWO64));
      DecRoundTrip(m % TWO64);
      DecRoundTrip(n % TWO64);
    }
  }

  /** Counters less than 2^64 apart never render to the same identifier. */
  lemma TagFresh(p: string, m: nat, q: string, n: nat)
    requires m < n < m + TWO64
    ensures Tag(p, m) != Tag(q, n)
  {
    TagInjective(p, m, q, n);
    assert m == TWO64 * (m / TWO64) + m % TWO64;
    assert n == TWO64 * (n / TWO64) + n % TWO64;
  }
}
