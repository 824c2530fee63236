/** `std::hex` rendering of an unsigned integer, as `GenerateHash` uses it:
    lowercase digits, no padding, no leading zeros, and "0" for zero. */
module Hex {

  /** `size_t` on a 64-bit build. */
  newtype Word64 = x: int | 0 <= x < 0x1_0000_0000_0000_0000

  predicate IsHexDigit(c: char) {
    '0' <= c <= '9' || 'a' <= c <= 'f'
  }

  function DigitChar(d: nat): (c: char)
    requires d < 16
    ensures IsHexDigit(c) && (c == '0' <==> d == 0)
  {
    if d < 10 then ('0' as int + d) as char else ('a' as int + d - 10) as char
  }

  function DigitValue(c: char): (d: nat)
    requires IsHexDigit(c)
    ensures d < 16 && DigitChar(d) == c
  {
    if c <= '9' then (c - '0') as nat else (c - 'a') as nat + 10
  }

  /** The digits of `n` in base 16, most significant first. */
  function ToHex(n: nat): (s: string)
    ensures |s| >= 1
    decreases n
  {
    if n < 16 then [DigitChar(n)] else ToHex(n / 16) + [DigitChar(n % 16)]
  }

  predicate AllHexDigits(s: string) {
    forall i :: 0 <= i < |s| ==> IsHexDigit(s[i])
  }

  /** The value of a string of hex digits, most significant first. */
  function ParseHex(s: string): nat
    requires AllHexDigits(s)
    decreases |s|
  {
    if s == [] then 0 else ParseHex(s[..|s| - 1]) * 16 + DigitValue(s[|s| - 1])
  }

  /** What `std::hex` can print: at least one digit, only lowercase hex
      digits, and no leading zero unless the whole text is "0". */
  predicate Canonical(s: string) {
    |s| > 0 && AllHexDigits(s) && (|s| > 1 ==> s[0] != '0')
  }

  function Pow16(k: nat): (p: nat)
    ensures p >= 1
  {
    if k == 0 then 1 else 16 * Pow16(k - 1)
  }

  /** Every rendering is canonical. */
  lemma {:induction false} ToHexCanonical(n: nat)
    ensures Canonical(ToHex(n))
    decreases n
  {
    if n >= 16 {
      ToHexCanonical(n / 16);
      var s := ToHex(n / 16) + [DigitChar(n % 16)];
      assert s[0] == ToHex(n / 16)[0];
      if n / 16 < 16 {
        assert ToHex(n / 16) == [DigitChar(n / 16)];
      } else {
        assert |ToHex(n / 16)| > 1;
      }
      forall i | 0 <= i < |s| ensures IsHexDigit(s[i]) {
        if i < |ToHex(n / 16)| { assert s[i] == ToHex(n / 16)[i]; }
      }
    }
  }

  /** Reading a rendering back gives the number: the rendering loses nothing. */
  lemma {:induction false} ParseToHex(n: nat)
    ensures AllHexDigits(ToHex(n)) && ParseHex(ToHex(n)) == n
    decreases n
  {
    ToHexCanonical(n);
    if n >= 16 {
      ParseToHex(n / 16);
      var s := ToHex(n);
      assert s[..|s| - 1] == ToHex(n / 16);
      assert s[|s| - 1] == DigitChar(n % 16);
    }
  }

  /** Rendering a canonical text's value gives the text back: every
      canonical text is the rendering of exactly one number. */
  lemma {:induction false} ToHexParse(s: string)
    requires Canonical(s)
    ensures ToHex(ParseHex(s)) == s
    decreases |s|
  {
    var last := s[|s| - 1];
    if |s| == 1 {
      assert ParseHex(s[..0]) == 0 by { assert s[..0] == []; }
      assert ParseHex(s) == DigitValue(last);
      assert DigitValue(last) < 16;
      assert ToHex(DigitValue(last)) == [last];
    } else {
      var init := s[..|s| - 1];
      assert init[0] == s[0];
      assert AllHexDigits(init) by {
        forall i | 0 <= i < |init| ensures IsHexDigit(init[i]) { assert init[i] == s[i]; }
      }
      ToHexParse(init);
      var m := ParseHex(init);
      ParseIsPositive(init);
      var n := m * 16 + DigitValue(last);
      assert ParseHex(s) == n;
      DivMod16(m, DigitValue(last));
      assert ToHex(n) == ToHex(m) + [last];
      assert s == init + [last];
    }
  }

  /** A text of hex digits whose leading digit is not zero has a positive value. */
  lemma {:induction false} ParseIsPositive(s: string)
    requires AllHexDigits(s) && |s| > 0 && s[0] != '0'
    ensures ParseHex(s) > 0
    decreases |s|
  {
    if |s| > 1 {
      var init := s[..|s| - 1];
      assert init[0] == s[0];
      assert AllHexDigits(init) by {
        forall i | 0 <= i < |init| ensures IsHexDigit(init[i]) { assert init[i] == s[i]; }
      }
      ParseIsPositive(init);
    } else {
      assert s[..0] == [];
    }
  }

  lemma DivMod16(m: nat, d: nat)
    requires d < 16
    ensures (m * 16 + d) / 16 == m && (m * 16 + d) % 16 == d
  {
  }

  /** The rendering takes exactly k digits for 16^(k-1) <= n < 16^k: the
      width grows with the value and is never padded. */
  lemma {:induction false} ToHexLength(n: nat, k: nat)
    requires k >= 1 && (k == 1 || Pow16(k - 1) <= n) && n < Pow16(k)
    ensures |ToHex(n)| == k
    decreases k
  {
    if k > 1 {
      assert n >= 16;
      ToHexLength(n / 16, k - 1);
    } else {
      assert Pow16(1) == 16;
    }
  }

  /** Distinct numbers have distinct renderings. */
  lemma ToHexInjective(m: nat, n: nat)
    ensures ToHex(m) == ToHex(n) <==> m == n
  {
    ParseToHex(m);
    ParseToHex(n);
  }

  /** A value below 16^k renders to at most k digits. */
  lemma {:induction false} ToHexAtMost(n: nat, k: nat)
    requires k >= 1 && n < Pow16(k)
    ensures |ToHex(n)| <= k
    decreases k
  {
    if n >= 16 {
      assert k > 1;
      ToHexAtMost(n / 16, k - 1);
    }
  }

  lemma Pow16Of16()
    ensures Pow16(16) == 0x1_0000_0000_0000_0000
  {
    assert Pow16(4) == 0x1_0000;
    assert Pow16(8) == 0x1_0000_0000;
    assert Pow16(12) == 0x1_0000_0000_0000;
  }

  /** A 64-bit value renders to between 1 and 16 digits. */
  lemma Word64Width(n: nat)
    requires n < 0x1_0000_0000_0000_0000
    ensures 1 <= |ToHex(n)| <= 16
  {
    Pow16Of16();
    ToHexAtMost(n, 16);
  }
}
