/** Identifiers as the columns show them: lower-case hex of the little-endian bytes, and nothing for zero. */
module Hex {
  import opened Oracle
  import opened Telemetry

  const NIBBLES: string := "0123456789abcdef"

  function Pow256(k: nat): (r: nat)
    ensures r >= 1
  {
    if k == 0 then 1 else 256 * Pow256(k - 1)
  }

  function Byte(b: nat): (s: string)
    requires b < 256
    ensures |s| == 2
  {
    [NIBBLES[b / 16], NIBBLES[b % 16]]
  }

  /** The first `k` little-endian bytes of `n`, two hex digits each. */
  function Bytes(n: nat, k: nat): (s: string)
    ensures |s| == 2 * k
  {
    if k == 0 then "" else Byte(n % 256) + Bytes(n / 256, k - 1)
  }

  function Nibble(c: char): int {
    if '0' <= c <= '9' then c as int - '0' as int else c as int - 'a' as int + 10
  }

  function Parse(s: string): int {
    if |s| < 2 then 0 else 16 * Nibble(s[0]) + Nibble(s[1]) + 256 * Parse(s[2..])
  }

  function SpanHex(id: nat): string {
    if id == 0 then "" else Bytes(id, 8)
  }

  function TraceHex(id: TraceId): string {
    if id.lo == 0 && id.hi == 0 then "" else Bytes(id.lo, 8) + Bytes(id.hi, 8)
  }

  lemma {:induction false} NibbleRoundTrip(d: nat)
    requires d < 16
    ensures Nibble(NIBBLES[d]) == d
  {
  }

  lemma {:induction false} ByteRoundTrip(b: nat)
    requires b < 256
    ensures 16 * Nibble(Byte(b)[0]) + Nibble(Byte(b)[1]) == b
  {
    NibbleRoundTrip(b / 16);
    NibbleRoundTrip(b % 16);
  }

  lemma {:induction false} DropByte(n: nat, k: nat)
    requires k > 0 && n < Pow256(k)
    ensures n / 256 < Pow256(k - 1)
  {
  }

  lemma {:induction false} ParseBytes(n: nat, k: nat)
    requires n < Pow256(k)
    ensures Parse(Bytes(n, k)) == n
  {
    hide Byte, Nibble;
    if k == 0 {
    } else {
      ByteRoundTrip(n % 256);
      DropByte(n, k);
      assert Bytes(n, k)[2..] == Bytes(n / 256, k - 1);
      ParseBytes(n / 256, k - 1);
    }
  }

  lemma {:induction false} EightBytes()
    ensures Pow256(8) == TWO_64
  {
    assert Pow256(4) == 0x1_0000_0000;
    assert Pow256(8) == 0x1_0000_0000 * Pow256(4);
  }

  lemma {:induction false} BytesInjective(m: nat, n: nat)
    requires m < TWO_64 && n < TWO_64
    requires Bytes(m, 8) == Bytes(n, 8)
    ensures m == n
  {
    EightBytes();
    ParseBytes(m, 8);
    ParseBytes(n, 8);
  }

  lemma {:induction false} SpanHexInjective(m: nat, n: nat)
    requires m < TWO_64 && n < TWO_64
    ensures SpanHex(m) == SpanHex(n) <==> m == n
    ensures SpanHex(m) == "" <==> m == 0
  {
    hide Bytes;
    if m != 0 && n != 0 && SpanHex(m) == SpanHex(n) {
      BytesInjective(m, n);
    }
  }

  ghost predicate IdOk(t: TraceId) {
    t.lo < TWO_64 && t.hi < TWO_64
  }

  lemma {:induction false} TraceHexInjective(s: TraceId, t: TraceId)
    requires IdOk(s) && IdOk(t)
    ensures TraceHex(s) == TraceHex(t) <==> s == t
  {
    hide Bytes;
    if TraceHex(s) == TraceHex(t) && TraceHex(s) != "" {
      var h := TraceHex(s);
      assert h[..16] == Bytes(s.lo, 8) == Bytes(t.lo, 8);
      assert h[16..] == Bytes(s.hi, 8) == Bytes(t.hi, 8);
      BytesInjective(s.lo, t.lo);
      BytesInjective(s.hi, t.hi);
    }
  }

  // ---- reading the texts back ----

  predicate HexDigit(c: char) { '0' <= c <= '9' || 'a' <= c <= 'f' }

  predicate HexDigits(s: string) { forall i :: 0 <= i < |s| ==> HexDigit(s[i]) }

  lemma {:induction false} BytesDigits(n: nat, k: nat)
    ensures HexDigits(Bytes(n, k))
  {
    if k == 0 {
    } else {
      BytesDigits(n / 256, k - 1);
      ByteDigits(n % 256);
    }
  }

  lemma {:induction false} ByteDigits(b: nat)
    requires b < 256
    ensures HexDigits(Byte(b))
  {
    assert forall d :: 0 <= d < 16 ==> HexDigit(NIBBLES[d]);
  }

  /** A span id is shown in 16 lower-case hex digits, which give it back as a little-endian number. */
  lemma {:induction false} SpanHexRead(id: nat)
    requires 0 < id < TWO_64
    ensures |SpanHex(id)| == 16 && HexDigits(SpanHex(id)) && Parse(SpanHex(id)) == id
  {
    hide Bytes, Parse, Pow256;
    EightBytes();
    ParseBytes(id, 8);
    BytesDigits(id, 8);
  }

  /** A trace id in 32: the first half gives back the first word that was drawn, the second half the second. */
  lemma {:induction false} TraceHexRead(id: TraceId)
    requires IdOk(id) && id != TraceId(0, 0)
    ensures |TraceHex(id)| == 32 && HexDigits(TraceHex(id))
    ensures Parse(TraceHex(id)[..16]) == id.lo && Parse(TraceHex(id)[16..]) == id.hi
  {
    hide Bytes, Parse, Pow256;
    EightBytes();
    ParseBytes(id.lo, 8);
    ParseBytes(id.hi, 8);
    BytesDigits(id.lo, 8);
    BytesDigits(id.hi, 8);
    assert TraceHex(id)[..16] == Bytes(id.lo, 8) && TraceHex(id)[16..] == Bytes(id.hi, 8);
  }

  lemma {:induction false} NextByte(n: nat, k: nat)
    requires k > 0
    ensures Bytes(n, k) == Byte(n % 256) + Bytes(n / 256, k - 1)
  {
  }

  lemma {:induction false} SomeBytes()
    ensures Byte(0) == "00" && Byte(1) == "01" && Byte(0x2c) == "2c"
  {
  }

  lemma {:induction false} ZeroBytes(k: nat, zeros: string)
    requires |zeros| == 2 * k && forall i :: 0 <= i < |zeros| ==> zeros[i] == '0'
    ensures Bytes(0, k) == zeros
  {
    if k == 0 {
    } else {
      ZeroBytes(k - 1, zeros[2..]);
      SomeBytes();
      hide Byte;
      assert zeros == "00" + zeros[2..];
    }
  }

  lemma {:induction false} SmallWord(n: nat)
    requires n < 256
    ensures Bytes(n, 8) == Byte(n) + "00000000000000"
  {
    hide Bytes, Byte;
    NextByte(n, 8);
    ZeroBytes(7, "00000000000000");
  }

  /** The order of words and digits, by example. */
  lemma {:induction false} TraceHexExample()
    ensures TraceHex(TraceId(1, 0x2c)) == "01000000000000002c00000000000000"
  {
    hide Bytes, Byte;
    SomeBytes();
    SmallWord(1);
    SmallWord(0x2c);
  }

  /** The order of bytes. */
  lemma {:induction false} SpanHexExample()
    ensures SpanHex(0x2c00) == "002c000000000000"
  {
    hide Bytes, Byte;
    SomeBytes();
    NextByte(0x2c00, 8);
    NextByte(0x2c, 7);
    ZeroBytes(6, "000000000000");
  }
}
