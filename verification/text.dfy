/** Python text operations that several modules use: stripping, digits and decimal values. */
module Text {

  predicate Space(c: char) {
    var n := c as int;
    9 <= n <= 13 || 28 <= n <= 32 || n == 0x85 || n == 0xA0 || n == 0x1680 || 0x2000 <= n <= 0x200A ||
    n == 0x2028 || n == 0x2029 || n == 0x202F || n == 0x205F || n == 0x3000
  }

  function Strip(s: string): string {
    if s == "" then ""
    else if Space(s[0]) then Strip(s[1..])
    else if Space(s[|s| - 1]) then Strip(s[..|s| - 1])
    else s
  }

  predicate Digit(c: char) {
    '0' <= c <= '9'
  }

  predicate Digits(s: string) {
    s != "" && forall c | c in s :: Digit(c)
  }

  /** The number a digit string denotes; 0 for the empty string. */
  function Decimal(s: string): nat
    requires forall c | c in s :: Digit(c)
  {
    if s == "" then 0
    else
      assert Digit(s[|s| - 1]);
      10 * Decimal(s[..|s| - 1]) + (s[|s| - 1] as int - '0' as int)
  }

  function Pow10(n: nat): nat {
    if n == 0 then 1 else 10 * Pow10(n - 1)
  }

  /** How many digits a number is written with. */
  function DecimalWidth(n: nat): nat {
    if n < 10 then 1 else 1 + DecimalWidth(n / 10)
  }

  function TrimZeros(s: string): (t: string)
    ensures |t| <= |s| && t == s[|s| - |t|..]
    ensures t == "" || t[0] != '0'
  {
    if s != "" && s[0] == '0' then TrimZeros(s[1..]) else s
  }

  lemma {:induction false} WidthBounds(n: nat)
    ensures n < Pow10(DecimalWidth(n))
  {
    if n >= 10 {
      WidthBounds(n / 10);
    }
  }

  /** A numeral without leading zeros is at least the power of ten of its width. */
  lemma {:induction false} WideIsLarge(s: string)
    requires Digits(s) && s[0] != '0'
    ensures Decimal(s) >= Pow10(|s| - 1)
  {
    assert Digit(s[0]);
    if |s| > 1 {
      WideIsLarge(s[..|s| - 1]);
      assert Digit(s[|s| - 1]);
    } else {
      assert s[..0] == "";
      assert Digit(s[|s| - 1]) && s[|s| - 1] > '0';
    }
  }

  lemma {:induction false} LeadingZero(s: string)
    requires (forall c | c in s :: Digit(c)) && s != "" && s[0] == '0'
    ensures Decimal(s[1..]) == Decimal(s)
  {
    if |s| > 1 {
      LeadingZero(s[..|s| - 1]);
      assert s[..|s| - 1][1..] == s[1..][..|s| - 2];
      assert s[1..][|s| - 2] == s[|s| - 1];
    } else {
      assert s[..0] == "" && s[1..] == "";
    }
  }

  lemma {:induction false} TrimKeepsValue(s: string)
    requires forall c | c in s :: Digit(c)
    ensures forall c | c in TrimZeros(s) :: Digit(c)
    ensures Decimal(TrimZeros(s)) == Decimal(s)
  {
    if s != "" && s[0] == '0' {
      LeadingZero(s);
      TrimKeepsValue(s[1..]);
    }
  }
}
