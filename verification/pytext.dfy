/**
 * The handful of Python text operations the user model relies on:
 * `'{}'.format(n)` of an integer, `int(s)` of a string, `str.startswith`
 * and `str.zfill`.
 */
module PyText {
  import opened Wrappers

  predicate IsDigit(c: char) {
    '0' <= c <= '9'
  }

  predicate AllDigits(s: string) {
    forall k | 0 <= k < |s| :: IsDigit(s[k])
  }

  function DigitChar(d: nat): (c: char)
    requires d < 10
    ensures IsDigit(c)
  {
    (48 + d) as char
  }

  function DigitValue(c: char): (d: nat)
    requires IsDigit(c)
    ensures d < 10 && DigitChar(d) == c
  {
    c as int - 48
  }

  /** The decimal text of `n`, as `'{}'.format(n)` writes a non-negative int. */
  function NatToString(n: nat): (s: string)
    ensures |s| >= 1 && AllDigits(s)
    decreases n
  {
    if n < 10 then [DigitChar(n)] else NatToString(n / 10) + [DigitChar(n % 10)]
  }

  /** The decimal text of `i`, with a leading `-` when negative. */
  function IntToString(i: int): (s: string)
    ensures |s| >= 1
    ensures i < 0 <==> s[0] == '-'
  {
    if i < 0 then "-" + NatToString(-i) else NatToString(i)
  }

  /** The value of a string of decimal digits; leading zeros add nothing. */
  function DigitsValue(s: string): nat
    requires AllDigits(s)
  {
    if s == [] then 0 else DigitsValue(s[..|s| - 1]) * 10 + DigitValue(s[|s| - 1])
  }

  predicate IsSign(c: char) {
    c == '+' || c == '-'
  }

  /**
   * Python's `int(s)` on text: an optional sign followed by at least one
   * ASCII digit. Anything else raises ValueError, shown here as `None`.
   */
  function ParseInt(s: string): (r: Option<int>)
    ensures r.Some? ==> |s| >= 1
  {
    if |s| > 0 && IsSign(s[0]) then
      var body := s[1..];
      if |body| > 0 && AllDigits(body) then
        var v: int := DigitsValue(body);
        Some(if s[0] == '-' then -v else v)
      else
        None
    else if |s| > 0 && AllDigits(s) then
      Some(DigitsValue(s))
    else
      None
  }

  predicate StartsWith(s: string, prefix: string) {
    |prefix| <= |s| && s[..|prefix|] == prefix
  }

  function Zeros(k: nat): (z: string)
    ensures |z| == k && AllDigits(z)
  {
    seq(k, _ => '0')
  }

  /**
   * Python's `s.zfill(width)`: left-pad with `0` up to `width` characters,
   * keeping a leading sign in front of the padding; never truncates.
   */
  function ZFill(s: string, width: nat): (r: string)
    ensures |r| == if |s| >= width then |s| else width
    ensures |s| >= width ==> r == s
    ensures |s| < width && !(|s| > 0 && IsSign(s[0])) ==>
              r[width - |s|..] == s && forall i | 0 <= i < width - |s| :: r[i] == '0'
    ensures |s| < width && |s| > 0 && IsSign(s[0]) ==>
              r[0] == s[0] && r[width - |s| + 1..] == s[1..] && forall i | 1 <= i <= width - |s| :: r[i] == '0'
  {
    if |s| >= width then s
    else if |s| > 0 && IsSign(s[0]) then [s[0]] + Zeros(width - |s|) + s[1..]
    else Zeros(width - |s|) + s
  }

  lemma {:induction false} NatToStringRoundTrip(n: nat)
    ensures DigitsValue(NatToString(n)) == n
    decreases n
  {
    var s := NatToString(n);
    if n < 10 {
      assert s[..|s| - 1] == [];
    } else {
      assert s[..|s| - 1] == NatToString(n / 10);
      NatToStringRoundTrip(n / 10);
    }
  }

  /** `int('{}'.format(i)) == i` for every integer. */
  lemma IntToStringRoundTrip(i: int)
    ensures ParseInt(IntToString(i)) == Some(i)
  {
    if i < 0 {
      NegativeRoundTrip(i);
    } else {
      var s := NatToString(i);
      NatToStringRoundTrip(i);
      assert IsDigit(s[0]);
      assert ParseInt(s) == Some(DigitsValue(s));
    }
  }

  lemma NegativeRoundTrip(i: int)
    requires i < 0
    ensures ParseInt(IntToString(i)) == Some(i)
  {
    var digits := NatToString(-i);
    var s := IntToString(i);
    assert s == "-" + digits;
    assert s[0] == '-' && s[1..] == digits;
    NatToStringRoundTrip(-i);
    assert AllDigits(s[1..]);
  }

  lemma {:induction false} ZerosValue(k: nat)
    ensures DigitsValue(Zeros(k)) == 0
  {
    if k > 0 {
      assert Zeros(k)[..k - 1] == Zeros(k - 1);
      ZerosValue(k - 1);
    }
  }

  lemma {:induction false} LeadingZerosValue(k: nat, t: string)
    requires AllDigits(t)
    ensures AllDigits(Zeros(k) + t)
    ensures DigitsValue(Zeros(k) + t) == DigitsValue(t)
    decreases |t|
  {
    var s := Zeros(k) + t;
    assert AllDigits(s) by {
      forall j | 0 <= j < |s| ensures IsDigit(s[j]) {
        if j < k { assert s[j] == Zeros(k)[j]; } else { assert s[j] == t[j - k]; }
      }
    }
    if t == [] {
      assert s == Zeros(k);
      ZerosValue(k);
    } else {
      assert s[..|s| - 1] == Zeros(k) + t[..|t| - 1];
      assert s[|s| - 1] == t[|t| - 1];
      LeadingZerosValue(k, t[..|t| - 1]);
    }
  }

  /** Zero-padding never changes the number a string denotes. */
  lemma ZFillKeepsValue(s: string, width: nat)
    requires ParseInt(s).Some?
    ensures ParseInt(ZFill(s, width)) == ParseInt(s)
  {
    if |s| < width {
      if IsSign(s[0]) {
        SignedZFillValue(s, width);
      } else {
        UnsignedZFillValue(s, width);
      }
    }
  }

  lemma SignedZFillValue(s: string, width: nat)
    requires |s| >= 2 && IsSign(s[0]) && AllDigits(s[1..]) && |s| < width
    ensures ParseInt(ZFill(s, width)) == ParseInt(s)
  {
    var body := s[1..];
    var z := Zeros(width - |s|);
    var r := ZFill(s, width);
    assert r == [s[0]] + (z + body);
    LeadingZerosValue(width - |s|, body);
    assert r[0] == s[0] && r[1..] == z + body;
  }

  lemma UnsignedZFillValue(s: string, width: nat)
    requires |s| >= 1 && AllDigits(s) && |s| < width
    ensures ParseInt(ZFill(s, width)) == ParseInt(s)
  {
    var r := ZFill(s, width);
    assert r == Zeros(width - |s|) + s;
    LeadingZerosValue(width - |s|, s);
    assert IsDigit(r[0]) && IsDigit(s[0]);
  }
}
