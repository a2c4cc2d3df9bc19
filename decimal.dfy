/**
 * Decimal text for frame numbers: Python's `str.isdigit`, `int(...)` and
 * the `'%06d' % n` formatting used to name the neighbouring frames of a block.
 */
module Decimal {
  import opened Wrappers

  predicate IsDigit(c: char) { '0' <= c <= '9' }

  /** `s.isdigit()`: non-empty and made of digits only. */
  predicate IsDigits(s: string) {
    |s| > 0 && forall i :: 0 <= i < |s| ==> IsDigit(s[i])
  }

  predicate AllDigits(s: string) {
    forall i :: 0 <= i < |s| ==> IsDigit(s[i])
  }

  function DigitChar(d: nat): (c: char)
    requires d < 10
    ensures IsDigit(c)
  {
    ('0' as int + d) as char
  }

  function Pow10(k: nat): (r: nat)
    ensures r >= 1
  {
    if k == 0 then 1 else 10 * Pow10(k - 1)
  }

  /** The value of a string of digits, read most significant digit first. */
  function ParseDigits(s: string): nat
    requires AllDigits(s)
  {
    if s == [] then 0
    else ParseDigits(s[..|s| - 1]) * 10 + (s[|s| - 1] as int - '0' as int)
  }

  /** The shortest decimal spelling of `n` (what `str(n)` gives). */
  function DigitsOf(n: nat): (s: string)
    ensures IsDigits(s)
  {
    if n < 10 then [DigitChar(n)] else DigitsOf(n / 10) + [DigitChar(n % 10)]
  }

  function Zeros(k: nat): (s: string)
    ensures |s| == k && AllDigits(s)
  {
    if k == 0 then [] else Zeros(k - 1) + ['0']
  }

  /** Left-pad `s` with zeros to at least `width` characters. */
  function ZeroPad(s: string, width: nat): (r: string)
  {
    if |s| < width then Zeros(width - |s|) + s else s
  }

  /** `'%06d' % n`: at least six characters, zero padding after the sign. */
  function Format06(n: int): (s: string)
  {
    if n >= 0 then ZeroPad(DigitsOf(n), 6) else "-" + ZeroPad(DigitsOf(-n), 5)
  }

  /** `int(s)` for an optional sign followed by ASCII digits; `None` where `int` raises. */
  function ParseInt(s: string): (r: Option<int>)
    ensures r.Some? ==> |s| > 0
    ensures IsDigits(s) ==> r == Some(ParseDigits(s))
  {
    if IsDigits(s) then Some(ParseDigits(s))
    else if |s| > 1 && s[0] == '-' && IsDigits(s[1..]) then Some(-(ParseDigits(s[1..]) as int))
    else if |s| > 1 && s[0] == '+' && IsDigits(s[1..]) then Some(ParseDigits(s[1..]))
    else None
  }

  /** A stem that `'%06d'` reproduces exactly: six digits, or more without a leading zero. */
  predicate Canonical06(s: string) {
    IsDigits(s) && (|s| == 6 || (|s| > 6 && s[0] != '0'))
  }

  // ---------------------------------------------------------------------
  // Lemmas

  lemma {:induction false} ParseDigitsBound(s: string)
    requires AllDigits(s)
    ensures ParseDigits(s) < Pow10(|s|)
  {
    if s != [] {
      ParseDigitsBound(s[..|s| - 1]);
    }
  }

  lemma {:induction false} ParseDigitsLeadingNonZero(s: string)
    requires IsDigits(s) && s[0] != '0'
    ensures ParseDigits(s) >= Pow10(|s| - 1)
  {
    if |s| > 1 {
      var p := s[..|s| - 1];
      assert p[0] == s[0];
      ParseDigitsLeadingNonZero(p);
    }
  }

  /** Leading zeros do not change the value. */
  lemma {:induction false} ParseDigitsZeros(k: nat, s: string)
    requires AllDigits(s)
    ensures AllDigits(Zeros(k) + s) && ParseDigits(Zeros(k) + s) == ParseDigits(s)
  {
    var z := Zeros(k);
    if s == [] {
      assert z + s == z;
      ZerosValue(k);
    } else {
      var p := s[..|s| - 1];
      assert (z + s)[..|z + s| - 1] == z + p;
      ParseDigitsZeros(k, p);
    }
  }

  lemma {:induction false} ZerosValue(k: nat)
    ensures ParseDigits(Zeros(k)) == 0
  {
    if k > 0 {
      assert Zeros(k)[..k - 1] == Zeros(k - 1);
      ZerosValue(k - 1);
    }
  }

  /** `int(str(n)) == n`. */
  lemma {:induction false} ParseDigitsOf(n: nat)
    ensures ParseDigits(DigitsOf(n)) == n
  {
    if n >= 10 {
      var s := DigitsOf(n);
      assert s[..|s| - 1] == DigitsOf(n / 10);
      ParseDigitsOf(n / 10);
    }
  }

  /** The shortest spelling has exactly as many digits as `n` needs. */
  lemma {:induction false} DigitsOfLength(n: nat, k: nat)
    requires k >= 1 && n < Pow10(k)
    ensures |DigitsOf(n)| <= k
    ensures n >= Pow10(k - 1) ==> |DigitsOf(n)| == k
  {
    if n >= 10 {
      if k == 1 {
        assert false;
      }
      DigitsOfLength(n / 10, k - 1);
      if n >= Pow10(k - 1) {
        assert Pow10(k - 1) == 10 * Pow10(k - 2);
      }
    } else if n >= Pow10(k - 1) {
      if k >= 2 {
        assert false;
      }
    }
  }

  lemma {:induction false} DigitsOfNoLeadingZero(n: nat)
    requires |DigitsOf(n)| > 1
    ensures DigitsOf(n)[0] != '0'
  {
    var s := DigitsOf(n);
    var q := DigitsOf(n / 10);
    assert s == q + [DigitChar(n % 10)];
    assert s[0] == q[0];
    if |q| > 1 {
      DigitsOfNoLeadingZero(n / 10);
    }
  }

  /** Two digit strings of one length with one value are equal. */
  lemma {:induction false} ParseDigitsInjective(s: string, t: string)
    requires AllDigits(s) && AllDigits(t) && |s| == |t|
    requires ParseDigits(s) == ParseDigits(t)
    ensures s == t
  {
    if s != [] {
      var n := |s|;
      var ds := s[n - 1] as int - '0' as int;
      var dt := t[n - 1] as int - '0' as int;
      var ps, pt := ParseDigits(s[..n - 1]), ParseDigits(t[..n - 1]);
      assert ps * 10 + ds == pt * 10 + dt;
      if ps != pt {
        assert false;
      }
      ParseDigitsInjective(s[..n - 1], t[..n - 1]);
      assert s == s[..n - 1] + [s[n - 1]];
      assert t == t[..n - 1] + [t[n - 1]];
    }
  }

  lemma Format06NonNegative(n: nat)
    ensures IsDigits(Format06(n))
    ensures ParseDigits(Format06(n)) == n
    ensures |Format06(n)| == if |DigitsOf(n)| < 6 then 6 else |DigitsOf(n)|
  {
    var d := DigitsOf(n);
    ParseDigitsOf(n);
    if |d| < 6 {
      ParseDigitsZeros(6 - |d|, d);
    }
  }

  /** `int('%06d' % n) == n` for every integer, negative ones included. */
  lemma Format06RoundTrip(n: int)
    ensures ParseInt(Format06(n)) == Some(n)
  {
    if n >= 0 {
      Format06NonNegative(n);
    } else {
      var d := DigitsOf(-n);
      var body := ZeroPad(d, 5);
      ParseDigitsOf(-n);
      if |d| < 5 {
        ParseDigitsZeros(5 - |d|, d);
      }
      var s := Format06(n);
      assert s == "-" + body && s[1..] == body;
      assert !IsDigits(s) by { assert !IsDigit(s[0]); }
    }
  }

  /**
   * Re-formatting a digit stem reproduces it exactly when the stem is canonical:
   * six digits, or more than six without a leading zero.
   */
  lemma StemReformat(s: string)
    requires IsDigits(s)
    ensures Format06(ParseDigits(s)) == s <==> Canonical06(s)
  {
    var v := ParseDigits(s);
    var f := Format06(v);
    Format06NonNegative(v);
    ParseDigitsBound(s);
    DigitsOfLength(v, |s|);
    if Canonical06(s) {
      if |s| > 6 {
        ParseDigitsLeadingNonZero(s);
      }
      assert |f| == |s|;
      ParseDigitsInjective(f, s);
    }
    if f == s {
      if |s| > 6 {
        assert f == DigitsOf(v);
        DigitsOfNoLeadingZero(v);
      }
    }
  }
}
