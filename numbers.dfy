/**
  Decimal numbers in text: JavaScript's `parseInt(s, 10)`, which reads the
  environment's numeric settings, and the decimal rendering of an integer
  that a template literal such as `${duration}ms` produces.
 */
module Numbers {
  import opened Js
  import opened Text

  predicate IsDigit(ch: char)
  {
    '0' <= ch <= '9'
  }

  predicate AllDigits(s: string)
  {
    forall i :: 0 <= i < |s| ==> IsDigit(s[i])
  }

  /** The longest prefix of `s` made of decimal digits. */
  function DigitPrefix(s: string): (r: string)
    ensures |r| <= |s| && r == s[..|r|]
    ensures AllDigits(r)
    ensures |r| < |s| ==> !IsDigit(s[|r|])
  {
    if s != [] && IsDigit(s[0]) then [s[0]] + DigitPrefix(s[1..]) else ""
  }

  /** The value of a string of decimal digits, most significant first. */
  function DigitsValue(ds: string): nat
    requires AllDigits(ds)
  {
    if ds == [] then 0
    else DigitsValue(ds[..|ds| - 1]) * 10 + (ds[|ds| - 1] as int - '0' as int)
  }

  /** The text `parseInt` reads digits from: `s` after white space and one sign. */
  function Unsigned(s: string): (u: string)
    ensures |u| <= |s|
  {
    var t := TrimStart(s);
    if t != [] && (t[0] == '-' || t[0] == '+') then t[1..] else t
  }

  /**
    `parseInt(s, 10)`: leading white space is skipped, one '-' or '+' is
    read, then the longest run of decimal digits; NaN when there is none.
   */
  function ParseInt(s: string): (n: Number)
    ensures n.NaN? <==> DigitPrefix(Unsigned(s)) == ""
    ensures s == "" ==> n == NaN
    ensures AllDigits(s) && s != "" ==> n == Int(DigitsValue(s))
  {
    var t := TrimStart(s);
    var negative := t != [] && t[0] == '-';
    var ds := DigitPrefix(Unsigned(s));
    assert AllDigits(s) && s != "" ==> t == s && ds == s;
    if ds == "" then NaN
    else if negative then Int(-(DigitsValue(ds) as int))
    else Int(DigitsValue(ds))
  }

  function DigitChar(d: nat): (ch: char)
    requires d < 10
    ensures IsDigit(ch) && ch as int - '0' as int == d
  {
    ('0' as int + d) as char
  }

  /** The decimal rendering of a natural number, without leading zeros. */
  function ShowNat(n: nat): (s: string)
    ensures s != "" && AllDigits(s)
    ensures DigitsValue(s) == n
    ensures |s| > 1 ==> s[0] != '0'
  {
    if n < 10 then [DigitChar(n)]
    else
      var s := ShowNat(n / 10) + [DigitChar(n % 10)];
      assert s[..|s| - 1] == ShowNat(n / 10);
      s
  }

  /** The decimal rendering of an integer: `String(i)` for an integral number. */
  function ShowInt(i: int): (s: string)
    ensures s != ""
    ensures i < 0 <==> s[0] == '-'
  {
    if i < 0 then "-" + ShowNat(-i) else ShowNat(i)
  }

  /** The digit prefix of digits followed by a non-digit is those digits. */
  lemma {:induction false} DigitPrefixOfDigits(ds: string, rest: string)
    requires AllDigits(ds)
    requires rest == "" || !IsDigit(rest[0])
    ensures DigitPrefix(ds + rest) == ds
  {
    if ds != [] {
      assert (ds + rest)[1..] == ds[1..] + rest;
      DigitPrefixOfDigits(ds[1..], rest);
      assert ds == [ds[0]] + ds[1..];
    } else {
      assert ds + rest == rest;
    }
  }

  /**
    `parseInt` reads back the rendering of any integer, whatever non-digit
    text follows it (so `parseInt('15ms', 10)` is 15).
   */
  lemma ParseShowInt(i: int, rest: string)
    requires rest == "" || !IsDigit(rest[0])
    ensures ParseInt(ShowInt(i) + rest) == Int(i)
  {
    var m: nat := if i < 0 then -i else i;
    var digits := ShowNat(m);
    var s := ShowInt(i) + rest;
    assert !IsSpace(s[0]);
    assert TrimStart(s) == s;
    if i < 0 {
      assert s == "-" + (digits + rest);
      assert s[1..] == digits + rest;
    } else {
      assert s == digits + rest;
      assert IsDigit(s[0]);
    }
    assert Unsigned(s) == digits + rest;
    DigitPrefixOfDigits(digits, rest);
  }
}
