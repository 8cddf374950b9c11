/** The two conversions between integers and text that the session's
    persisted TTL goes through: `localStorage.setItem` turns the number into
    its decimal text, and `parseInt` (radix 10) reads it back. */
module Numbers {
  import opened Common

  /** A JavaScript number as far as the client uses it: an integer or `NaN`. */
  datatype JsNum = NaN | Num(n: int)

  /** Truthiness of an optional number: `undefined`, `NaN` and 0 are falsy. */
  predicate NumTruthy(e: Option<JsNum>)
  {
    e.Some? && e.value.Num? && e.value.n != 0
  }

  predicate IsDigit(c: char)
  {
    '0' <= c <= '9'
  }

  function DigitChar(d: nat): (c: char)
    requires d < 10
    ensures IsDigit(c) && c as int - '0' as int == d
  {
    ('0' as int + d) as char
  }

  /** Decimal text of a natural number, most significant digit first, no
      leading zeros. */
  function ShowNat(n: nat): (s: string)
    ensures |s| > 0
    ensures forall i :: 0 <= i < |s| ==> IsDigit(s[i])
  {
    if n < 10 then [DigitChar(n)] else ShowNat(n / 10) + [DigitChar(n % 10)]
  }

  /** `String(n)` for an integer: a minus sign before the digits of a
      negative number. */
  function ShowInt(n: int): string
  {
    if n < 0 then "-" + ShowNat(-n) else ShowNat(n)
  }

  /** Value of a run of decimal digits. */
  function DigitsValue(s: string): nat
    requires forall i :: 0 <= i < |s| ==> IsDigit(s[i])
  {
    if s == [] then 0
    else
      assert IsDigit(s[|s| - 1]);
      DigitsValue(s[..|s| - 1]) * 10 + (s[|s| - 1] as int - '0' as int)
  }

  /** The longest prefix of `s` made of decimal digits. */
  function DigitPrefix(s: string): (p: string)
    ensures |p| <= |s| && p == s[..|p|]
    ensures forall i :: 0 <= i < |p| ==> IsDigit(p[i])
    ensures |p| == |s| || !IsDigit(s[|p|])
  {
    if s != [] && IsDigit(s[0]) then [s[0]] + DigitPrefix(s[1..]) else []
  }

  /** `parseInt(s)` with the default radix: leading white space is skipped, one
      sign is accepted, then the longest run of decimal digits is read;
      without any digit the result is `NaN`. */
  function ParseInt(s: string): JsNum
  {
    var t := TrimStart(s, IsJsSpace);
    var negative := t != [] && t[0] == '-';
    var body := if t != [] && (t[0] == '-' || t[0] == '+') then t[1..] else t;
    var digits := DigitPrefix(body);
    if digits == [] then NaN
    else if negative then Num(0 - DigitsValue(digits))
    else Num(DigitsValue(digits))
  }

  lemma {:induction false} ShowNatValue(n: nat)
    ensures DigitsValue(ShowNat(n)) == n
  {
    if n >= 10 {
      ShowNatValue(n / 10);
      var s := ShowNat(n);
      assert s[..|s| - 1] == ShowNat(n / 10);
    }
  }

  lemma {:induction false} DigitPrefixOfDigits(s: string)
    requires forall i :: 0 <= i < |s| ==> IsDigit(s[i])
    ensures DigitPrefix(s) == s
  {
    if s != [] {
      DigitPrefixOfDigits(s[1..]);
    }
  }

  /** What `setItem` writes, `parseInt` reads back unchanged. */
  lemma ParseShowInt(n: int)
    ensures ParseInt(ShowInt(n)) == Num(n)
  {
    var m: nat := if n < 0 then -n else n;
    var digits := ShowNat(m);
    DigitPrefixOfDigits(digits);
    ShowNatValue(m);
    var s := ShowInt(n);
    assert !IsJsSpace(s[0]) by {
      assert s[0] == '-' || IsDigit(s[0]);
    }
    assert TrimStart(s, IsJsSpace) == s;
    if n < 0 {
      assert s[0] == '-' && s[1..] == digits;
    } else {
      assert s[0] != '-' && s[0] != '+' && s == digits;
    }
  }
}
