/**
 * Decimal rendering and parsing of integers: Rust's `Display` for integers
 * and `str::parse::<u64>`, which the admin handlers use for user ids.
 */
module Decimal {
  import opened Wrappers

  /** 2^64: every `u64` is below it. */
  const U64Bound: nat := 0x1_0000_0000_0000_0000

  predicate IsDigit(c: char)
  {
    '0' <= c <= '9'
  }

  predicate AllDigits(s: string)
  {
    forall i | 0 <= i < |s| :: IsDigit(s[i])
  }

  function DigitChar(d: nat): (c: char)
    requires d < 10
    ensures IsDigit(c)
  {
    (('0' as int) + d) as char
  }

  function DigitValue(c: char): (d: nat)
    requires IsDigit(c)
    ensures d < 10 && DigitChar(d) == c
  {
    (c as int) - ('0' as int)
  }

  /** The shortest decimal rendering of `n`. */
  function ShowNat(n: nat): (s: string)
    ensures |s| > 0 && AllDigits(s)
  {
    if n < 10 then [DigitChar(n)] else ShowNat(n / 10) + [DigitChar(n % 10)]
  }

  /** The value of a string of decimal digits ("" is 0). */
  function DigitsValue(s: string): nat
    requires AllDigits(s)
  {
    if s == [] then 0 else DigitsValue(s[..|s| - 1]) * 10 + DigitValue(s[|s| - 1])
  }

  /** Reading back a rendered number gives the number. */
  lemma {:induction false} ShowNatValue(n: nat)
    ensures DigitsValue(ShowNat(n)) == n
  {
    if n >= 10 {
      var s := ShowNat(n);
      assert s[..|s| - 1] == ShowNat(n / 10);
      ShowNatValue(n / 10);
    }
  }

  /** Different numbers render differently. */
  lemma ShowNatInjective(m: nat, n: nat)
    requires ShowNat(m) == ShowNat(n)
    ensures m == n
  {
    ShowNatValue(m);
    ShowNatValue(n);
  }

  /**
   * `s.parse::<u64>()`: an optional leading '+', then one or more decimal
   * digits (leading zeros allowed) whose value fits in 64 bits.
   */
  function ParseU64(s: string): (r: Option<nat>)
    ensures r.Some? ==> r.value < U64Bound
  {
    var ds := if |s| > 0 && s[0] == '+' then s[1..] else s;
    if |ds| > 0 && AllDigits(ds) && DigitsValue(ds) < U64Bound then Some(DigitsValue(ds)) else None
  }

  /** Every rendered `u64`, with or without a '+', parses back to itself. */
  lemma ParseU64ShowNat(n: nat)
    requires n < U64Bound
    ensures ParseU64(ShowNat(n)) == Some(n)
    ensures ParseU64("+" + ShowNat(n)) == Some(n)
  {
    ShowNatValue(n);
    assert ("+" + ShowNat(n))[1..] == ShowNat(n);
  }

  /** A string that parses has only digits after an optional leading '+', and a value below 2^64. */
  lemma ParseU64Accepts(s: string)
    requires ParseU64(s).Some?
    ensures |s| > 0
    ensures forall i | 0 <= i < |s| :: IsDigit(s[i]) || (i == 0 && s[i] == '+')
    ensures ParseU64(s).value < U64Bound
  {
    if s[0] == '+' {
      forall i | 1 <= i < |s| ensures IsDigit(s[i]) {
        assert s[i] == s[1..][i - 1];
      }
    }
  }

  /** `k` leading zeros. */
  function Zeros(k: nat): (z: string)
    ensures |z| == k && AllDigits(z)
  {
    seq(k, _ => '0')
  }

  /** Leading zeros do not change the value of a digit string. */
  lemma {:induction false} ZerosValue(k: nat, s: string)
    requires AllDigits(s)
    ensures AllDigits(Zeros(k) + s) && DigitsValue(Zeros(k) + s) == DigitsValue(s)
  {
    var t := Zeros(k) + s;
    assert AllDigits(t) by {
      forall i | 0 <= i < |t| ensures IsDigit(t[i]) {
        if i < k { assert t[i] == Zeros(k)[i]; } else { assert t[i] == s[i - k]; }
      }
    }
    if s == [] {
      assert t == Zeros(k);
      ZerosAreZero(k);
    } else {
      assert t[..|t| - 1] == Zeros(k) + s[..|s| - 1];
      ZerosValue(k, s[..|s| - 1]);
    }
  }

  lemma {:induction false} ZerosAreZero(k: nat)
    ensures DigitsValue(Zeros(k)) == 0
  {
    if k > 0 {
      assert Zeros(k)[..k - 1] == Zeros(k - 1);
      ZerosAreZero(k - 1);
    }
  }

  /**
   * Leading zeros are accepted and ignored: every `u64` written with any
   * number of leading zeros, with or without a '+', parses to itself.
   */
  lemma ParseU64Padded(n: nat, k: nat)
    requires n < U64Bound
    ensures ParseU64(Zeros(k) + ShowNat(n)) == Some(n)
    ensures ParseU64("+" + (Zeros(k) + ShowNat(n))) == Some(n)
  {
    var ds := Zeros(k) + ShowNat(n);
    ShowNatValue(n);
    ZerosValue(k, ShowNat(n));
    assert IsDigit(ds[0]);
    assert ("+" + ds)[1..] == ds;
  }

  /** Every non-empty digit string is some leading zeros followed by the rendering of its value. */
  lemma {:induction false} DigitsCanonical(ds: string) returns (k: nat)
    requires |ds| > 0 && AllDigits(ds)
    ensures ds == Zeros(k) + ShowNat(DigitsValue(ds))
  {
    var p, c := ds[..|ds| - 1], ds[|ds| - 1];
    assert ds == p + [c];
    var v := DigitsValue(ds);
    if p == [] {
      k := 0;
      assert ShowNat(v) == [c];
    } else {
      var j := DigitsCanonical(p);
      var vp := DigitsValue(p);
      if vp == 0 {
        k := j + 1;
        assert ShowNat(v) == [c];
        assert p == Zeros(j) + "0";
        assert Zeros(k) == Zeros(j) + "0";
      } else {
        k := j;
        assert v / 10 == vp && v % 10 == DigitValue(c);
        assert ShowNat(v) == ShowNat(vp) + [c];
      }
    }
  }

  /**
   * The converse: a string that parses is the rendering of its value after
   * an optional '+' and some leading zeros.
   */
  lemma ParseU64Form(s: string)
    requires ParseU64(s).Some?
    ensures exists k: nat :: s == Zeros(k) + ShowNat(ParseU64(s).value) || s == "+" + (Zeros(k) + ShowNat(ParseU64(s).value))
  {
    var k;
    if s[0] == '+' {
      k := DigitsCanonical(s[1..]);
      assert s == "+" + s[1..];
    } else {
      k := DigitsCanonical(s);
    }
    assert s == Zeros(k) + ShowNat(ParseU64(s).value) || s == "+" + (Zeros(k) + ShowNat(ParseU64(s).value));
  }

  /** Values of 2^64 and above, the empty string, a lone sign and a minus sign are all refused. */
  lemma ParseU64Rejects(n: nat, s: string)
    requires n >= U64Bound
    ensures ParseU64(ShowNat(n)) == None
    ensures ParseU64("") == None && ParseU64("+") == None
    ensures ParseU64("-" + s) == None
  {
    ShowNatValue(n);
    assert !IsDigit(("-" + s)[0]);
  }

  /** Decimal rendering of a signed integer. */
  function ShowInt(i: int): (s: string)
    ensures |s| > 0
    ensures forall k | 0 <= k < |s| :: IsDigit(s[k]) || s[k] == '-'
  {
    if i < 0 then "-" + ShowNat(-i) else ShowNat(i)
  }

  /** Signed decimal: an optional '-' followed by one or more digits. */
  function ParseInt(s: string): Option<int>
  {
    if |s| > 0 && s[0] == '-' then
      if |s| > 1 && AllDigits(s[1..]) then Some(0 - DigitsValue(s[1..])) else None
    else if |s| > 0 && AllDigits(s) then Some(DigitsValue(s))
    else None
  }

  /** A signed decimal written exactly as `ShowInt` writes it (no '+', no leading zeros, no "-0"). */
  function ParseCanonicalInt(s: string): Option<int>
  {
    match ParseInt(s)
    case Some(v) => if ShowInt(v) == s then Some(v) else None
    case None => None
  }

  /** Rendering then parsing a signed integer gives it back. */
  lemma ParseShowInt(i: int)
    ensures ParseCanonicalInt(ShowInt(i)) == Some(i)
  {
    var s := ShowInt(i);
    if i < 0 {
      assert s[1..] == ShowNat(-i);
      ShowNatValue(-i);
    } else {
      assert IsDigit(s[0]);
      ShowNatValue(i);
    }
  }

  /** A string accepted by the canonical parser is the rendering of its value. */
  lemma ParseCanonicalIntExact(s: string)
    requires ParseCanonicalInt(s).Some?
    ensures ShowInt(ParseCanonicalInt(s).value) == s
  {
  }
}
