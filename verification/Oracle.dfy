/** The random stream and the latency arithmetic that the topology builder and the generator share.

    A tape stands for everything a seeded stream can produce. Every theorem quantifies over all
    tapes, so nothing depends on the quality of the real stream. */
module Oracle {

  type Tape = nat -> nat

  const TWO_53: nat := 0x20_0000_0000_0000
  const TWO_63: nat := 0x8000_0000_0000_0000
  const TWO_64: nat := 0x1_0000_0000_0000_0000

  function IntN(draw: nat, k: int): (r: nat)
    requires k > 0
    ensures r < k
  {
    draw % k
  }

  function Float64(draw: nat): (r: real)
    ensures 0.0 <= r < 1.0
  {
    (draw % TWO_53) as real / TWO_53 as real
  }

  function Uint64(draw: nat): (r: nat)
    ensures r < TWO_64
  {
    draw % TWO_64
  }

  /** The log-normal sample is any 64-bit duration from the 1000 ns floor up. */
  function SampleDur(draw: nat): (r: nat)
    ensures 1000 <= r < TWO_63
  {
    1000 + draw % (TWO_63 - 1000)
  }

  /** Wall-clock nanoseconds: a 64-bit instant at least the 2 s jitter window after the epoch. */
  function Clock(draw: nat): (r: nat)
    ensures 2_000_000_000 <= r < TWO_63
  {
    2_000_000_000 + draw % (TWO_63 - 2_000_000_000)
  }

  /** Conversion of a non-negative float to a duration: truncation toward zero. */
  function Trunc(x: real): (r: nat)
    requires x >= 0.0
    ensures r as real <= x < r as real + 1.0
  {
    x.Floor
  }

  function Scale(x: real, f: real): (r: real)
    requires x >= 0.0
    requires 0.0 <= f < 1.0
    ensures 0.0 <= r <= x
    ensures x > 0.0 ==> r < x
  {
    if x == 0.0 then 0.0 else
      assert x * f < x;
      x * f
  }

  /** A child starts strictly within the first 70% of a parent of non-zero duration. */
  function Offset(dur: nat, f: real): (offset: nat)
    requires 0.0 <= f < 1.0
    ensures 10 * offset <= 7 * dur
    ensures dur > 0 ==> 10 * offset < 7 * dur
  {
    var x := dur as real * 0.7;
    TruncBelow(x, Scale(x, f), dur);
    Trunc(Scale(x, f))
  }

  lemma {:induction false} TruncBelow(x: real, y: real, n: nat)
    requires 0.0 <= y <= x == n as real * 0.7
    ensures 10 * Trunc(y) <= 7 * n
    ensures y < x ==> 10 * Trunc(y) < 7 * n
  {
    assert (10 * Trunc(y)) as real <= 10.0 * y;
    assert (7 * n) as real == 10.0 * x;
  }

  /** What the clamp makes of a sampled duration for a child that starts `offset` into its parent. */
  function ClampDur(parentDur: nat, offset: int, sample: nat): (r: nat) {
    var rem := parentDur - offset;
    if sample > rem && rem > 0 then rem else sample
  }

  /** A child lasts as long as it was sampled, unless that is beyond the end of its parent: then it ends
      with it. Where nothing of the parent is left, the sample stands. */
  lemma {:induction false} ClampShortens(parentDur: nat, offset: nat, sample: nat)
    ensures var c := ClampDur(parentDur, offset, sample);
            && c <= sample
            && (offset < parentDur ==> offset + c <= parentDur && (c == sample || offset + c == parentDur))
            && (offset >= parentDur ==> c == sample)
  {
  }

  /** The offset over integers: the whole part of 7/10 of the duration times draw / 2^53. */
  lemma {:induction false} OffsetOverDraws(dur: nat, draw: nat)
    ensures var k := Offset(dur, Float64(draw));
            10 * TWO_53 * k <= 7 * dur * (draw % TWO_53) < 10 * TWO_53 * (k + 1)
  {
    var k, d := Offset(dur, Float64(draw)), draw % TWO_53;
    var x := Scale(dur as real * 0.7, Float64(draw));
    assert k as real <= x < k as real + 1.0;
    ScaleOverDraws(dur, d);
    assert x * 10.0 * TWO_53 as real == (7 * dur * d) as real;
    assert (k as real) * 10.0 * TWO_53 as real == (10 * TWO_53 * k) as real;
    assert (k as real + 1.0) * 10.0 * TWO_53 as real == (10 * TWO_53 * (k + 1)) as real;
  }

  lemma {:induction false} ScaleOverDraws(dur: nat, d: nat)
    requires d < TWO_53
    ensures Scale(dur as real * 0.7, d as real / TWO_53 as real) * 10.0 * TWO_53 as real == (7 * dur * d) as real
  {
    var f := d as real / TWO_53 as real;
    assert f * TWO_53 as real == d as real;
    assert dur as real * 0.7 * f * 10.0 * TWO_53 as real == 7.0 * dur as real * (f * TWO_53 as real);
    assert (7 * dur * d) as real == 7.0 * dur as real * d as real;
  }

  function ServerLead(dur: nat): nat { Trunc(dur as real * 0.1) }

  function ServerDur(dur: nat): nat { Trunc(dur as real * 0.85) }

  /** The least parent duration with which the recursion can be entered at each depth. */
  function DurFloor(depth: nat): nat {
    match depth
    case 1 => 1000
    case 2 => 255
    case 3 => 65
    case 4 => 17
    case 5 => 5
    case 6 => 1
    case _ => 0
  }

  lemma {:induction false} ServerBounds(dur: nat)
    ensures 10 * ServerLead(dur) <= dur < 10 * ServerLead(dur) + 10
    ensures 20 * ServerDur(dur) <= 17 * dur < 20 * ServerDur(dur) + 20
    ensures ServerLead(dur) + ServerDur(dur) <= dur
  {
  }

  /** A clamped child ends inside its parent exactly when the parent's duration is not zero. */
  lemma {:induction false} ChildFitsIff(parentDur: nat, f: real, sample: nat)
    requires 0.0 <= f < 1.0
    requires sample >= 1000
    ensures var offset := Offset(parentDur, f);
            offset + ClampDur(parentDur, offset, sample) <= parentDur <==> parentDur > 0
  {
  }

  /** One level of the recursion keeps the durations it recurses into above the next level's floor,
      through the client span as well as through its server counterpart. */
  lemma {:induction false} FloorStep(depth: nat, parentDur: nat, f: real, sample: nat)
    requires 1 <= depth <= 6
    requires 0.0 <= f < 1.0
    requires sample >= 1000
    requires parentDur >= DurFloor(depth)
    ensures var child := ClampDur(parentDur, Offset(parentDur, f), sample);
            child >= 1 && child >= DurFloor(depth + 1) && ServerDur(child) >= DurFloor(depth + 1)
  {
    ServerBounds(ClampDur(parentDur, Offset(parentDur, f), sample));
  }

  /** Every floor is attained by the largest uniform draw, so at depth 7 a duration of zero does
      occur: the depth cap cannot be raised without losing time nesting. */
  lemma {:induction false} FloorAttained(depth: nat)
    requires 1 <= depth <= 6
    ensures var f := Float64(TWO_53 - 1);
            ServerDur(ClampDur(DurFloor(depth), Offset(DurFloor(depth), f), 1000)) == DurFloor(depth + 1)
  {
    var f := Float64(TWO_53 - 1);
    assert f == 1.0 - 1.0 / (TWO_53 as real);
    var d := DurFloor(depth);
    assert d as real * 0.7 * f == d as real * 0.7 - d as real * 0.7 / (TWO_53 as real);
  }
}
