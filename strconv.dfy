/** The slice of Go's strconv the client relies on to read rate-limit headers. */
module StrConv {
  import opened Wrappers

  const MaxInt64: int := 0x7FFF_FFFF_FFFF_FFFF
  const MinInt64: int := -0x8000_0000_0000_0000

  predicate IsDigit(c: char) { '0' <= c <= '9' }

  /** Every character of s from index `from` on is a decimal digit. */
  predicate DigitsFrom(s: string, from: nat)
  {
    forall k :: from <= k < |s| ==> IsDigit(s[k])
  }

  /**
   * Reads the decimal digits of s from index i on, most significant first,
   * onto the value `acc` read so far; None at the first character that is
   * not a digit.
   */
  function Scan(s: string, i: nat, acc: nat): Option<nat>
    requires i <= |s|
    decreases |s| - i
  {
    if i == |s| then Some(acc)
    else if IsDigit(s[i]) then Scan(s, i + 1, acc * 10 + (s[i] as int - '0' as int))
    else None
  }

  /** The length of an optional leading '+' or '-'. */
  function SignLength(s: string): nat
  {
    if |s| > 0 && (s[0] == '+' || s[0] == '-') then 1 else 0
  }

  /**
   * strconv.ParseInt(s, 10, 64), and strconv.Atoi on a 64-bit platform: an
   * optional '+' or '-' followed by at least one decimal digit, whose value
   * lies in the int64 range. Anything else (the empty string, a bare sign,
   * spaces, underscores, an HTTP date, an out-of-range number) is an error.
   */
  function ParseInt64(s: string): (r: Option<int>)
    ensures r.Some? ==> MinInt64 <= r.value <= MaxInt64
  {
    var start := SignLength(s);
    if start == |s| then None
    else
      match Scan(s, start, 0)
      case None => None
      case Some(magnitude) =>
        var m: int := magnitude;
        var v := if s[0] == '-' then -m else m;
        if MinInt64 <= v <= MaxInt64 then Some(v) else None
  }

  /** Scanning fails exactly when some remaining character is not a digit. */
  lemma {:induction false} ScanDefined(s: string, i: nat, acc: nat)
    requires i <= |s|
    ensures Scan(s, i, acc).Some? <==> DigitsFrom(s, i)
    decreases |s| - i
  {
    if i < |s| && IsDigit(s[i]) {
      ScanDefined(s, i + 1, acc * 10 + (s[i] as int - '0' as int));
    }
  }

  function Pow10(n: nat): (p: nat)
    ensures p >= 1
  {
    if n == 0 then 1 else 10 * Pow10(n - 1)
  }

  /** Scanning n more digits onto `acc` gives less than (acc + 1) * 10^n. */
  lemma {:induction false} ScanBelow(s: string, i: nat, acc: nat)
    requires i <= |s| && Scan(s, i, acc).Some?
    ensures Scan(s, i, acc).value < (acc + 1) * Pow10(|s| - i)
    decreases |s| - i
  {
    if i < |s| {
      var next := acc * 10 + (s[i] as int - '0' as int);
      ScanBelow(s, i + 1, next);
      var p := Pow10(|s| - i - 1);
      assert next + 1 <= (acc + 1) * 10;
      MulMonotone(next + 1, (acc + 1) * 10, p);
      assert (acc + 1) * 10 * p == (acc + 1) * (10 * p);
    }
  }

  lemma MulMonotone(a: int, b: int, p: nat)
    requires a <= b
    ensures a * p <= b * p
  {
  }

  lemma {:induction false} Pow10Sum(m: nat, n: nat)
    ensures Pow10(m + n) == Pow10(m) * Pow10(n)
    decreases m
  {
    if m > 0 {
      Pow10Sum(m - 1, n);
    }
  }

  lemma {:induction false} Pow10Monotone(m: nat, n: nat)
    requires m <= n
    ensures Pow10(m) <= Pow10(n)
    decreases n
  {
    if m < n {
      Pow10Monotone(m, n - 1);
    }
  }

  /**
   * ParseInt64 accepts only an optional sign followed by one or more digits,
   * and accepts every such string of at most 18 digits (whose value always
   * fits in an int64).
   */
  lemma ParseInt64Accepts(s: string)
    ensures ParseInt64(s).Some? ==> SignLength(s) < |s| && DigitsFrom(s, SignLength(s))
    ensures SignLength(s) < |s| <= SignLength(s) + 18 && DigitsFrom(s, SignLength(s)) ==> ParseInt64(s).Some?
  {
    var start := SignLength(s);
    ScanDefined(s, start, 0);
    if start < |s| <= start + 18 && DigitsFrom(s, start) {
      ScanBelow(s, start, 0);
      Pow10Monotone(|s| - start, 18);
      assert Pow10(6) == 1_000_000;
      assert Pow10(12) == 1_000_000 * Pow10(6) by { Pow10Sum(6, 6); }
      assert Pow10(18) == 1_000_000 * Pow10(12) by { Pow10Sum(6, 12); }
    }
  }
}
