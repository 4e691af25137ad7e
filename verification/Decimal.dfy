/** Decimal rendering of naturals, as the service-name suffixes use it. */
module Decimal {

  const DIGITS: string := "0123456789"

  predicate IsDigit(c: char) { '0' <= c <= '9' }

  function Render(n: nat): (s: string)
    ensures s != "" && forall i :: 0 <= i < |s| ==> IsDigit(s[i])
  {
    if n < 10 then [DIGITS[n]] else Render(n / 10) + [DIGITS[n % 10]]
  }

  function Hex(n: nat): string {
    if n < 16 then ["0123456789abcdef"[n]] else Hex(n / 16) + ["0123456789abcdef"[n % 16]]
  }

  /** The number that a digit string denotes. */
  function Parse(s: string): int {
    if s == "" then 0 else 10 * Parse(s[..|s| - 1]) + (s[|s| - 1] as int - '0' as int)
  }

  lemma {:induction false} ParseRender(n: nat)
    ensures Parse(Render(n)) == n
  {
    var s := Render(n);
    if n < 10 {
      assert s[..0] == "";
    } else {
      assert s[..|s| - 1] == Render(n / 10);
      ParseRender(n / 10);
    }
  }

  lemma {:induction false} RenderInjective(m: nat, n: nat)
    requires Render(m) == Render(n)
    ensures m == n
  {
    ParseRender(m);
    ParseRender(n);
  }

  function HexValue(c: char): int {
    if IsDigit(c) then c as int - '0' as int else c as int - 'a' as int + 10
  }

  /** The number that a string of hex digits denotes. */
  function ParseHex(s: string): int {
    if s == "" then 0 else 16 * ParseHex(s[..|s| - 1]) + HexValue(s[|s| - 1])
  }

  lemma {:induction false} HexDigitRead(d: nat)
    requires d < 16
    ensures HexValue("0123456789abcdef"[d]) == d
  {
  }

  lemma {:induction false} ParseHexRead(n: nat)
    ensures Hex(n) != "" && ParseHex(Hex(n)) == n
  {
    hide HexValue;
    var s := Hex(n);
    HexDigitRead(n % 16);
    if n < 16 {
      assert s[..0] == "";
    } else {
      assert s[..|s| - 1] == Hex(n / 16);
      ParseHexRead(n / 16);
    }
  }
}
