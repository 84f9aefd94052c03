/** Python's `f"{n}"` and `int(s)` for decimal integers. */
module Numbers {
  import opened Wrappers
  import opened Text


  function DigitChar(d: nat): (c: char)
    requires d < 10
    ensures IsDigit(c)
  {
    ('0' as int + d) as char
  }

  function NatToString(n: nat): (s: string)
    ensures |s| > 0 && forall i | 0 <= i < |s| :: IsDigit(s[i])
  {
    if n < 10 then [DigitChar(n)] else NatToString(n / 10) + [DigitChar(n % 10)]
  }

  /** Python's `str(n)` / `f"{n}"` for an integer. */
  function IntToString(n: int): string {
    if n < 0 then "-" + NatToString(-n) else NatToString(n)
  }

  /** Digits in Python's `int()` syntax: ASCII digits, single underscores between digits. */
  predicate ValidDigits(d: string) {
    && |d| > 0 && IsDigit(d[0]) && IsDigit(d[|d| - 1])
    && (forall i | 0 <= i < |d| :: IsDigit(d[i]) || d[i] == '_')
    && (forall i | 0 <= i < |d| - 1 :: d[i] == '_' ==> d[i + 1] != '_')
  }

  function DigitsValue(d: string): nat
    requires forall i | 0 <= i < |d| :: IsDigit(d[i]) || d[i] == '_'
  {
    if d == [] then 0
    else if d[|d| - 1] == '_' then DigitsValue(d[..|d| - 1])
    else
      assert IsDigit(d[|d| - 1]);
      DigitsValue(d[..|d| - 1]) * 10 + (d[|d| - 1] as int - '0' as int)
  }

  /**
   * Python's `int(s)` on ASCII text: surrounding whitespace, an optional sign,
   * then digits with optional single underscores; `None` where Python raises ValueError.
   */
  function ParseInt(s: string): Option<int> {
    var t := Strip(s);
    if |t| > 0 && (t[0] == '+' || t[0] == '-') then
      if ValidDigits(t[1..]) then
        var v: int := DigitsValue(t[1..]);
        Some(if t[0] == '-' then -v else v)
      else None
    else if ValidDigits(t) then Some(DigitsValue(t))
    else None
  }

  lemma {:induction false} DigitsValueOfNat(n: nat)
    ensures DigitsValue(NatToString(n)) == n
  {
    if n >= 10 {
      var s := NatToString(n);
      assert s[..|s| - 1] == NatToString(n / 10);
      DigitsValueOfNat(n / 10);
    }
  }

  lemma {:induction false} StripNoSpace(s: string)
    requires forall i | 0 <= i < |s| :: !IsSpace(s[i])
    ensures Strip(s) == s
  {
  }

  lemma {:induction false} DigitNotSpace(c: char)
    requires IsDigit(c) || c == '-'
    ensures !IsSpace(c)
  {
  }

  lemma {:induction false} ValidDigitsOfNat(n: nat)
    ensures ValidDigits(NatToString(n))
  {
    var s := NatToString(n);
    assert forall i | 0 <= i < |s| :: s[i] != '_';
  }

  lemma {:induction false} NatStringNoSpace(n: nat)
    ensures forall i | 0 <= i < |NatToString(n)| :: !IsSpace(NatToString(n)[i])
  {
    var s := NatToString(n);
    forall i | 0 <= i < |s| ensures !IsSpace(s[i]) {
      DigitNotSpace(s[i]);
    }
  }

  lemma {:induction false} NatStringStripped(n: nat)
    ensures Strip(NatToString(n)) == NatToString(n)
  {
    NatStringNoSpace(n);
    StripNoSpace(NatToString(n));
  }

  /** Stripped digits without a sign parse to their value. */
  lemma {:induction false} ParseIntUnsigned(t: string)
    requires Strip(t) == t && ValidDigits(t)
    ensures ParseInt(t) == Some(DigitsValue(t))
  {
    assert t[0] != '+' && t[0] != '-';
  }

  lemma {:induction false} ParseIntOfNat(s: string, n: nat)
    requires s == NatToString(n)
    ensures ParseInt(s) == Some(n)
  {
    NatStringStripped(n);
    ValidDigitsOfNat(n);
    DigitsValueOfNat(n);
    ParseIntUnsigned(s);
  }

  lemma {:induction false} ParseIntOfNegative(s: string, n: nat)
    requires |s| > 0 && s[0] == '-' && s[1..] == NatToString(n)
    ensures ParseInt(s) == Some(-(n as int))
  {
    var d := NatToString(n);
    NatStringNoSpace(n);
    forall i | 0 <= i < |s| ensures !IsSpace(s[i]) {
      if i > 0 {
        assert s[i] == d[i - 1];
      }
    }
    StripNoSpace(s);
    ValidDigitsOfNat(n);
    DigitsValueOfNat(n);
  }

  /** `int(str(n)) == n`: the decimal text of an integer parses back to it. */
  lemma {:induction false} ParseIntOfString(n: int)
    ensures ParseInt(IntToString(n)) == Some(n)
  {
    if n < 0 {
      var s := IntToString(n);
      assert s[1..] == NatToString(-n);
      ParseIntOfNegative(s, -n);
    } else {
      ParseIntOfNat(IntToString(n), n);
    }
  }
}
