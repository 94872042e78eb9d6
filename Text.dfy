/** String helpers standing for PHP's implode and integer-to-string conversion. */
module Text {

  /** implode(sep, parts): the parts in order, separated by sep. */
  function Join(sep: string, parts: seq<string>): string
  {
    if parts == [] then ""
    else if |parts| == 1 then parts[0]
    else parts[0] + sep + Join(sep, parts[1..])
  }

  /** Joining one more part keeps the earlier ones and adds the separator only between parts. */
  lemma {:induction false} JoinSnoc(sep: string, parts: seq<string>, last: string)
    ensures Join(sep, parts + [last]) == if parts == [] then last else Join(sep, parts) + sep + last
  {
    if |parts| > 1 {
      assert (parts + [last])[1..] == parts[1..] + [last];
      JoinSnoc(sep, parts[1..], last);
    } else if |parts| == 1 {
      assert (parts + [last])[1..] == [last];
    }
  }

  /** With parts of one fixed non-zero width, the length of the join is determined by their number. */
  lemma {:induction false} JoinLength(sep: string, parts: seq<string>, width: nat)
    requires forall i :: 0 <= i < |parts| ==> |parts[i]| == width
    ensures |Join(sep, parts)| == if parts == [] then 0 else |parts| * width + (|parts| - 1) * |sep|
  {
    if |parts| > 1 {
      JoinLength(sep, parts[1..], width);
    }
  }

  /** Joining parts of one fixed non-zero width loses nothing: different part lists give different strings. */
  lemma {:induction false} JoinInjective(sep: string, a: seq<string>, b: seq<string>, width: nat)
    requires width > 0
    requires forall i :: 0 <= i < |a| ==> |a[i]| == width
    requires forall i :: 0 <= i < |b| ==> |b[i]| == width
    requires Join(sep, a) == Join(sep, b)
    ensures a == b
  {
    JoinLength(sep, a, width);
    JoinLength(sep, b, width);
    if a != [] && b != [] {
      CountFromLength(|a|, |b|, width, |sep|);
      if |a| > 1 {
        var ja, jb := Join(sep, a), Join(sep, b);
        assert ja == a[0] + sep + Join(sep, a[1..]);
        assert jb == b[0] + sep + Join(sep, b[1..]);
        assert a[0] == ja[..width] == jb[..width] == b[0];
        assert Join(sep, a[1..]) == ja[width + |sep|..] == jb[width + |sep|..] == Join(sep, b[1..]);
        JoinInjective(sep, a[1..], b[1..], width);
        assert a == [a[0]] + a[1..] && b == [b[0]] + b[1..];
      }
    }
  }

  lemma CountFromLength(m: nat, n: nat, width: nat, sepLength: nat)
    requires width > 0 && m > 0 && n > 0
    requires m * width + (m - 1) * sepLength == n * width + (n - 1) * sepLength
    ensures m == n
  {
    assert m * width + (m - 1) * sepLength == m * (width + sepLength) - sepLength;
    assert n * width + (n - 1) * sepLength == n * (width + sepLength) - sepLength;
  }

  function DigitChar(d: nat): char
    requires d < 10
  {
    "0123456789"[d]
  }

  /** The decimal digits of n, most significant first, with no leading zero. */
  function NatText(n: nat): (s: string)
    ensures |s| > 0
  {
    if n < 10 then [DigitChar(n)] else NatText(n / 10) + [DigitChar(n % 10)]
  }

  /** PHP's (string) of an integer. */
  function IntText(i: int): (s: string)
    ensures |s| > 0
  {
    if i < 0 then "-" + NatText(-i) else NatText(i)
  }

  /** The decimal text of n padded on the left with zeros to at least `width` characters. */
  function ZeroPadded(n: nat, width: nat): (s: string)
    ensures |s| >= width
  {
    var digits := NatText(n);
    if |digits| >= width then digits else Zeros(width - |digits|) + digits
  }

  predicate IsDigit(c: char) {
    '0' <= c <= '9'
  }

  predicate AllDigits(s: string) {
    forall i :: 0 <= i < |s| ==> IsDigit(s[i])
  }

  function Zeros(k: nat): (s: string)
    ensures |s| == k && AllDigits(s)
  {
    seq(k, _ => '0')
  }

  /** The value of a string of decimal digits. */
  function DigitsValue(s: string): nat
    requires AllDigits(s)
  {
    if s == [] then 0
    else
      assert IsDigit(s[|s| - 1]);
      10 * DigitsValue(s[..|s| - 1]) + (s[|s| - 1] - '0') as nat
  }

  lemma {:induction false} NatTextDigits(n: nat)
    ensures AllDigits(NatText(n))
    ensures DigitsValue(NatText(n)) == n
  {
    if n >= 10 {
      NatTextDigits(n / 10);
      var s := NatText(n);
      assert s[..|s| - 1] == NatText(n / 10);
    }
  }

  lemma {:induction false} LeadingZeros(k: nat, s: string)
    requires AllDigits(s)
    ensures AllDigits(Zeros(k) + s)
    ensures DigitsValue(Zeros(k) + s) == DigitsValue(s)
    decreases |s|
  {
    var z := Zeros(k);
    if s == [] {
      ZerosValue(k);
      assert z + s == z;
    } else {
      LeadingZeros(k, s[..|s| - 1]);
      assert (z + s)[..|z + s| - 1] == z + s[..|s| - 1];
    }
  }

  lemma {:induction false} ZerosValue(k: nat)
    ensures DigitsValue(Zeros(k)) == 0
  {
    if k > 0 {
      assert Zeros(k)[..k - 1] == Zeros(k - 1);
      ZerosValue(k - 1);
    }
  }

  /** Reading back a zero-padded number gives the number. */
  lemma ZeroPaddedValue(n: nat, width: nat)
    ensures AllDigits(ZeroPadded(n, width))
    ensures DigitsValue(ZeroPadded(n, width)) == n
  {
    var digits := NatText(n);
    var padded := ZeroPadded(n, width);
    NatTextDigits(n);
    if |digits| < width {
      PaddedValue(width - |digits|, digits, n);
      assert padded == Zeros(width - |digits|) + digits;
    } else {
      assert padded == digits;
    }
  }

  /** Zeros in front of the digits of n still read as n. */
  lemma PaddedValue(k: nat, digits: string, n: nat)
    requires AllDigits(digits) && DigitsValue(digits) == n
    ensures AllDigits(Zeros(k) + digits) && DigitsValue(Zeros(k) + digits) == n
  {
    LeadingZeros(k, digits);
  }

  /** A number below 10^width pads to exactly width digits. */
  lemma {:induction false} ZeroPaddedWidth(n: nat, width: nat)
    requires width > 0 && n < Pow10(width)
    ensures |ZeroPadded(n, width)| == width
  {
    NatTextLength(n, width);
  }

  function Pow10(k: nat): nat
  {
    if k == 0 then 1 else 10 * Pow10(k - 1)
  }

  lemma {:induction false} NatTextLength(n: nat, width: nat)
    requires width > 0 && n < Pow10(width)
    ensures |NatText(n)| <= width
  {
    if n >= 10 {
      assert Pow10(0) == 1 && Pow10(1) == 10;
      assert width > 1;
      assert n / 10 < Pow10(width - 1);
      NatTextLength(n / 10, width - 1);
    }
  }
}
