/** Record ids travel through Stripe metadata as decimal strings: they are
    written with `toString()` and read back with `parseInt`. */
module Decimal {
  import opened Common

  predicate IsDigit(c: char)
  {
    '0' <= c <= '9'
  }

  predicate AllDigits(s: string)
  {
    forall i :: 0 <= i < |s| ==> IsDigit(s[i])
  }

  function DigitValue(c: char): (d: nat)
    requires IsDigit(c)
    ensures d < 10
  {
    c as int - '0' as int
  }

  function DigitChar(d: nat): (c: char)
    requires d < 10
    ensures IsDigit(c) && DigitValue(c) == d
  {
    ('0' as int + d) as char
  }

  /** `n.toString()` for a non-negative integer: its shortest decimal spelling. */
  function ToDecimal(n: nat): (s: string)
    ensures |s| > 0 && AllDigits(s)
    ensures |s| > 1 ==> s[0] != '0'
    decreases n
  {
    if n < 10 then [DigitChar(n)] else ToDecimal(n / 10) + [DigitChar(n % 10)]
  }

  /** The value of a string of decimal digits, most significant first. */
  function DigitsValue(s: string): nat
    requires AllDigits(s)
    decreases |s|
  {
    if s == [] then 0 else DigitsValue(s[..|s| - 1]) * 10 + DigitValue(s[|s| - 1])
  }

  /** How many decimal digits `s` starts with. */
  function LeadingDigits(s: string): (k: nat)
    ensures k <= |s|
    ensures forall i :: 0 <= i < k ==> IsDigit(s[i])
    ensures k < |s| ==> !IsDigit(s[k])
    decreases |s|
  {
    if s == [] || !IsDigit(s[0]) then 0 else 1 + LeadingDigits(s[1..])
  }

  predicate IsHexDigit(c: char)
  {
    IsDigit(c) || 'a' <= c <= 'f' || 'A' <= c <= 'F'
  }

  predicate AllHexDigits(s: string)
  {
    forall i :: 0 <= i < |s| ==> IsHexDigit(s[i])
  }

  function HexDigitValue(c: char): (d: nat)
    requires IsHexDigit(c)
    ensures d < 16
    ensures IsDigit(c) ==> d == DigitValue(c)
  {
    if IsDigit(c) then DigitValue(c)
    else if 'a' <= c <= 'f' then c as int - 'a' as int + 10
    else c as int - 'A' as int + 10
  }

  /** The value of a string of hexadecimal digits, most significant first. */
  function HexDigitsValue(s: string): nat
    requires AllHexDigits(s)
    decreases |s|
  {
    if s == [] then 0 else HexDigitsValue(s[..|s| - 1]) * 16 + HexDigitValue(s[|s| - 1])
  }

  /** How many hexadecimal digits `s` starts with. */
  function LeadingHexDigits(s: string): (k: nat)
    ensures k <= |s|
    ensures forall i :: 0 <= i < k ==> IsHexDigit(s[i])
    ensures k < |s| ==> !IsHexDigit(s[k])
    decreases |s|
  {
    if s == [] || !IsHexDigit(s[0]) then 0 else 1 + LeadingHexDigits(s[1..])
  }

  /** Without a radix, `parseInt` reads a string that starts with `0x` or
      `0X` as hexadecimal. */
  predicate HasHexPrefix(s: string)
  {
    |s| >= 2 && s[0] == '0' && (s[1] == 'x' || s[1] == 'X')
  }

  /** `parseInt(s)` without a radix: after a `0x`/`0X` prefix the value of
      the leading run of hexadecimal digits, otherwise the value of the
      leading run of decimal digits; the rest is ignored, and `None` stands
      for `NaN` (no digit where one is needed). */
  function ParseInt(s: string): (r: Option<nat>)
    ensures !HasHexPrefix(s) ==> (r.None? <==> (s == [] || !IsDigit(s[0])))
    ensures HasHexPrefix(s) ==> (r.None? <==> (|s| == 2 || !IsHexDigit(s[2])))
  {
    if HasHexPrefix(s) then
      var k := LeadingHexDigits(s[2..]);
      if k == 0 then None else Some(HexDigitsValue(s[2..][..k]))
    else
      var k := LeadingDigits(s);
      if k == 0 then None else Some(DigitsValue(s[..k]))
  }

  /** `parseInt` reads `0x1A` as twenty-six, finds no digit in `0x`, and
      reads `12ab` as twelve. */
  lemma ParseIntExamples()
    ensures ParseInt("0x1A") == Some(26)
    ensures ParseInt("0x") == None
    ensures ParseInt("12ab") == Some(12)
  {
    var hex := "0x1A";
    assert hex[2..] == "1A" && "1A"[1..] == "A" && "A"[1..] == [];
    assert LeadingHexDigits("1A") == 2;
    assert "1A"[..2] == "1A" && "1A"[..1] == "1" && "1"[..0] == [];
    assert HexDigitsValue("1A") == 26;
    var dec := "12ab";
    assert dec[1..] == "2ab" && "2ab"[1..] == "ab";
    assert LeadingDigits(dec) == 2;
    assert dec[..2] == "12" && "12"[..1] == "1" && "1"[..0] == [];
    assert DigitsValue("12") == 12;
  }

  lemma LeadingDigitsOfDigits(s: string)
    requires AllDigits(s)
    ensures LeadingDigits(s) == |s|
  {
  }

  lemma {:induction false} ValueOfDecimal(n: nat)
    ensures DigitsValue(ToDecimal(n)) == n
    decreases n
  {
    var s := ToDecimal(n);
    if n < 10 {
      assert s[..|s| - 1] == [];
    } else {
      assert s[..|s| - 1] == ToDecimal(n / 10);
      ValueOfDecimal(n / 10);
    }
  }

  /** Reading back an id that was written with `toString()` gives the id. */
  lemma DecimalRoundTrip(n: nat)
    ensures ParseInt(ToDecimal(n)) == Some(n)
  {
    var s := ToDecimal(n);
    LeadingDigitsOfDigits(s);
    assert s[..|s|] == s;
    ValueOfDecimal(n);
  }

  /** `parseInt` ignores whatever follows the digits of an id: text that
      does not start with a digit does not change the value read, except
      that `0` followed by `x` or `X` is a hexadecimal prefix. */
  lemma ParseIntIgnoresRest(n: nat, t: string)
    requires t == [] || !IsDigit(t[0])
    requires n == 0 ==> t == [] || (t[0] != 'x' && t[0] != 'X')
    ensures ParseInt(ToDecimal(n) + t) == Some(n)
  {
    var d := ToDecimal(n);
    var s := d + t;
    assert s[..|d|] == d;
    assert !HasHexPrefix(s) by {
      if |d| == 1 && |s| >= 2 {
        assert s[1] == t[0];
        if n != 0 {
          assert d == [DigitChar(n)];
        }
      }
    }
    LeadingDigitsOfDigits(d);
    LeadingDigitsAppend(d, t);
    ValueOfDecimal(n);
  }

  /** The leading digits of a digit string followed by a non-digit are that string. */
  lemma {:induction false} LeadingDigitsAppend(d: string, t: string)
    requires AllDigits(d)
    requires t == [] || !IsDigit(t[0])
    ensures LeadingDigits(d + t) == |d|
    decreases |d|
  {
    if d == [] {
      assert d + t == t;
    } else {
      assert (d + t)[1..] == d[1..] + t;
      LeadingDigitsAppend(d[1..], t);
    }
  }

  /** Two ids have the same decimal spelling only if they are equal. */
  lemma DecimalInjective(m: nat, n: nat)
    requires ToDecimal(m) == ToDecimal(n)
    ensures m == n
  {
    DecimalRoundTrip(m);
    DecimalRoundTrip(n);
  }
}
